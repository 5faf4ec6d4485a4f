/**
 Any number of calls interleave over one source and several caches, each coordinated by its stripe. A Get that
 starts after a write through its cache has returned never yields anything the source held before that write.
 */
module CacheCoherence {
  import opened Prelude
  import opened TenantCache

  type ProcId = nat

  /** What the source holds for a tenant. */
  type Content = Option<Record>

  // ----- the source -----

  /** A swap compares one tenant's record and replaces that of the tenant it is called for; both should be the same. */
  datatype Change =
    | Create(record: Record)
    | Update(record: Record)
    | Swap(compared: TenantId, expected: Record, updated: Record)
    | Delete

  datatype SourceError = AlreadyExists | NotFound | Conflict | InvalidTenant

  /** What speaks against the expected record. */
  function Mismatch(expected: Record, current: Content): Option<SourceError> {
    if current.None? then Some(NotFound) else if current.value != expected then Some(Conflict) else None
  }

  /** One atomic source call. A source that swaps by itself refuses to compare one tenant and replace another. */
  function Applied(id: TenantId, change: Change, current: Content): Result<Content, SourceError> {
    match change
    case Create(record) => if current.Some? then Err(AlreadyExists) else Ok(Some(record))
    case Update(record) => if current.None? then Err(NotFound) else Ok(Some(record))
    case Swap(compared, expected, updated) =>
      if compared != id then Err(InvalidTenant)
      else if Mismatch(expected, current).Some? then Err(Mismatch(expected, current).value)
      else Ok(Some(updated))
    case Delete => if current.None? then Err(NotFound) else Ok(None)
  }

  /** Failed writes whose error says that the cached entry cannot be right. */
  predicate DropsEntry(change: Change, error: SourceError) {
    (change.Swap? && (error.Conflict? || error.NotFound?)) || (change.Delete? && error.NotFound?)
  }

  // ----- calls in flight -----

  /** Where a call stands. `since` and `version` count the source's versions and are known to the proof alone. */
  datatype Call =
    | GetStarted(id: TenantId, cache: CacheId, since: nat)
    | GetMissed(id: TenantId, cache: CacheId, since: nat, generation: nat)
    | GetRead(id: TenantId, cache: CacheId, since: nat, generation: nat, record: Record)
    | GetAbsent(id: TenantId, cache: CacheId, since: nat)
    | GetReturned(id: TenantId, cache: CacheId, since: nat, content: Content)
    | WriteStarted(id: TenantId, cache: CacheId, change: Change)
    | SwapChecked(id: TenantId, cache: CacheId, compared: TenantId, expected: Record, updated: Record)
    | Written(id: TenantId, cache: CacheId, change: Change, version: nat)
    | Refilling(id: TenantId, cache: CacheId, change: Change, version: nat, generation: nat)
    | RefillRead(id: TenantId, cache: CacheId, change: Change, version: nat, generation: nat, record: Record)
    | WriteReturned(id: TenantId, cache: CacheId, change: Change, version: nat)
    | WriteRejected(id: TenantId, cache: CacheId)
    | Failed

  /**
   `history` lists everything the source has held, latest last. Each coordinator has a generation and a legacy lock,
   which a process may hold. `invalidated` and `returned` give, for a cache and a tenant, the latest version whose write
   has invalidated the entry, and has returned.
   */
  datatype World = World(
    history: map<TenantId, seq<Content>>,
    generations: map<CoordinatorId, nat>,
    poisoned: set<CacheId>,
    caches: map<CacheId, map<TenantId, Record>>,
    invalidated: map<(CacheId, TenantId), nat>,
    returned: map<(CacheId, TenantId), nat>,
    atomicSwap: bool,
    legacyLocks: map<CoordinatorId, ProcId>,
    calls: map<ProcId, Call>)
  {
    function History(id: TenantId): (h: seq<Content>)
      ensures |h| > 0
    {
      if id in history && history[id] != [] then history[id] else [None]
    }

    function Latest(id: TenantId): nat { |History(id)| - 1 }

    function Current(id: TenantId): Content { History(id)[Latest(id)] }

    function Entries(cache: CacheId): map<TenantId, Record> { if cache in caches then caches[cache] else map[] }

    function Invalidated(cache: CacheId, id: TenantId): nat {
      if (cache, id) in invalidated then invalidated[(cache, id)] else 0
    }

    function Returned(cache: CacheId, id: TenantId): nat {
      if (cache, id) in returned then returned[(cache, id)] else 0
    }

    function Generation(coord: CoordinatorId): nat { if coord in generations then generations[coord] else 0 }

    function View(cache: CacheId): Shared {
      Shared(Generation(CoordinatorOf(cache)), cache in poisoned, Entries(cache))
    }

    function Put(cache: CacheId, s: Shared): World {
      this.(generations := generations[CoordinatorOf(cache) := s.generation], caches := caches[cache := s.entries],
            poisoned := if s.poisoned then poisoned + {cache} else poisoned - {cache})
    }

    function Locked(coord: CoordinatorId, p: ProcId): World { this.(legacyLocks := legacyLocks[coord := p]) }

    function Unlocked(coord: CoordinatorId): World { this.(legacyLocks := legacyLocks - {coord}) }

    function Moved(p: ProcId, call: Call): World { this.(calls := calls[p := call]) }
  }

  datatype Step =
    | StartGet(p: ProcId, id: TenantId, cache: CacheId)
    | StartWrite(p: ProcId, id: TenantId, cache: CacheId, change: Change)
    | LookUp(p: ProcId, faults: Faults)
    | ReadSource(p: ProcId)
    | Fill(p: ProcId, faults: Faults)
    | WriteSource(p: ProcId)
    | Drop(p: ProcId, faults: Faults)
    | Fail(p: ProcId)
    | Evict(cache: CacheId, id: TenantId)

  function Max(a: nat, b: nat): nat { if a < b then b else a }

  predicate SameSource(w: World, w': World) {
    w'.history == w.history && w'.legacyLocks == w.legacyLocks && w'.atomicSwap == w.atomicSwap
  }

  // ----- the steps -----

  /** What one step of a call leaves: where the call then stands, and the world around the calls. */
  datatype Outcome = Outcome(world: World, call: Call)

  /** The source call of a write: atomic, or under the legacy lock, which a swap keeps between its two calls. */
  function WriteSourceOf(w: World, p: ProcId, call: Call): (o: Outcome)
    ensures o.world.calls == w.calls
  {
    if call.WriteStarted? && (w.atomicSwap || CoordinatorOf(call.cache) !in w.legacyLocks) then
      if !w.atomicSwap && call.change.Swap? then ComparedOf(w, p, call.id, call.cache, call.change)
      else
        var outcome := Applied(call.id, call.change, w.Current(call.id));
        if outcome.Err? then Outcome(w, RejectedAs(call.id, call.cache, call.change, outcome.error))
        else CommittedOf(w, call.id, call.cache, call.change, outcome.value)
    else if call.SwapChecked? then
      var unlocked, swap := w.Unlocked(CoordinatorOf(call.cache)), Swap(call.compared, call.expected, call.updated);
      var outcome := Applied(call.id, Update(call.updated), w.Current(call.id));
      if outcome.Err? then Outcome(unlocked, RejectedAs(call.id, call.cache, swap, outcome.error))
      else CommittedOf(unlocked, call.id, call.cache, swap, outcome.value)
    else Outcome(w, call)
  }

  /** The first source call of a legacy swap, which reads the compared tenant only. */
  function ComparedOf(w: World, p: ProcId, id: TenantId, cache: CacheId, change: Change): (o: Outcome)
    requires change.Swap?
    ensures o.world.calls == w.calls
  {
    var problem := Mismatch(change.expected, w.Current(change.compared));
    if problem.Some? then Outcome(w, RejectedAs(id, cache, change, problem.value))
    else
      Outcome(w.Locked(CoordinatorOf(cache), p),
              SwapChecked(id, cache, change.compared, change.expected, change.updated))
  }

  /** A refused swap drops the entry of the tenant it compared. */
  function RejectedAs(id: TenantId, cache: CacheId, change: Change, error: SourceError): Call {
    if DropsEntry(change, error) then WriteRejected(if change.Swap? then change.compared else id, cache) else Failed
  }

  /** The source call succeeded. */
  function CommittedOf(w: World, id: TenantId, cache: CacheId, change: Change, content: Content): (o: Outcome)
    ensures o.world.calls == w.calls
  {
    Outcome(w.(history := w.history[id := w.History(id) + [content]]), Written(id, cache, change, w.Latest(id) + 1))
  }

  function ReadSourceOf(w: World, call: Call): (o: Outcome)
    ensures o.world.calls == w.calls
  {
    if call.GetMissed? then
      var content := w.Current(call.id);
      Outcome(w, if content.None? then GetAbsent(call.id, call.cache, call.since)
                 else GetRead(call.id, call.cache, call.since, call.generation, content.value))
    else if call.Refilling? then
      var content := w.Current(call.id);
      if content.None? then FinishedOf(w, call.id, call.cache, call.change, call.version)
      else Outcome(w, RefillRead(call.id, call.cache, call.change, call.version, call.generation, content.value))
    else Outcome(w, call)
  }

  /** A write returns to its caller. */
  function FinishedOf(w: World, id: TenantId, cache: CacheId, change: Change, version: nat): (o: Outcome)
    ensures o.world.calls == w.calls
  {
    Outcome(Noted(w, id, cache, version), WriteReturned(id, cache, change, version))
  }

  function Noted(w: World, id: TenantId, cache: CacheId, version: nat): World {
    w.(returned := w.returned[(cache, id) := Max(w.Returned(cache, id), version)])
  }

  function LookUpOf(w: World, call: Call, faults: Faults): (o: Outcome)
    ensures o.world.calls == w.calls
  {
    if call.GetStarted? && call.cache.Value? then Outcome(w, GetMissed(call.id, call.cache, call.since, 0))
    else if call.GetStarted? then
      var found := LookedUp(w.View(call.cache), call.id, faults);
      Outcome(w.Put(call.cache, found.shared),
        if found.hit.Some? then GetReturned(call.id, call.cache, call.since, found.hit)
        else GetMissed(call.id, call.cache, call.since, found.generation))
    else Outcome(w, call)
  }

  /** Caches that are only values are bypassed. */
  function FilledBy(w: World, cache: CacheId, id: TenantId, record: Record, generation: nat,
          faults: Faults): (w': World)
    ensures w'.calls == w.calls && SameSource(w, w') && w'.invalidated == w.invalidated
  {
    if cache.Value? then w else w.Put(cache, Filled(w.View(cache), id, record, generation, faults))
  }

  function FillOf(w: World, call: Call, faults: Faults): (o: Outcome)
    ensures o.world.calls == w.calls
  {
    if call.GetRead? || call.RefillRead? then
      var next := FilledBy(w, call.cache, call.id, call.record, call.generation, faults);
      if call.GetRead? then Outcome(next, GetReturned(call.id, call.cache, call.since, Some(call.record)))
      else FinishedOf(next, call.id, call.cache, call.change, call.version)
    else Outcome(w, call)
  }

  function DropOf(w: World, call: Call, faults: Faults): (o: Outcome)
    ensures o.world.calls == w.calls
  {
    if call.GetAbsent? then
      Outcome(Dropped(w, call.cache, call.id, faults), GetReturned(call.id, call.cache, call.since, None))
    else if call.WriteRejected? then Outcome(Dropped(w, call.cache, call.id, faults), Failed)
    else if call.Written? then
      var next := Superseded(w, call.cache, call.id, faults, call.version);
      if call.change.Delete? || call.cache.Value? then FinishedOf(next, call.id, call.cache, call.change, call.version)
      else
        Outcome(next,
                Refilling(call.id, call.cache, call.change, call.version, next.Generation(CoordinatorOf(call.cache))))
    else Outcome(w, call)
  }

  function Dropped(w: World, cache: CacheId, id: TenantId, faults: Faults): (w': World)
    ensures w'.calls == w.calls && SameSource(w, w') && w'.invalidated == w.invalidated
  {
    if cache.Value? then w else w.Put(cache, TenantCache.Invalidated(w.View(cache), id, faults))
  }

  /** A committed write invalidates its entry. */
  function Superseded(w: World, cache: CacheId, id: TenantId, faults: Faults, version: nat): (w': World)
    ensures w'.calls == w.calls && SameSource(w, w')
  {
    var next := Dropped(w, cache, id, faults);
    next.(invalidated := next.invalidated[(cache, id) := Max(next.Invalidated(cache, id), version)])
  }

  /** A source call that fails without effect ends the call; a failed refill still returns success. */
  function FailOf(w: World, call: Call): (o: Outcome)
    ensures o.world.calls == w.calls
  {
    if call.GetMissed? || call.WriteStarted? then Outcome(w, Failed)
    else if call.SwapChecked? then Outcome(w.Unlocked(CoordinatorOf(call.cache)), Failed)
    else if call.Refilling? then FinishedOf(w, call.id, call.cache, call.change, call.version)
    else Outcome(w, call)
  }

  function CallStep(w: World, p: ProcId, step: Step): (o: Outcome)
    requires p in w.calls
    ensures o.world.calls == w.calls
  {
    match step
    case LookUp(_, faults) => LookUpOf(w, w.calls[p], faults)
    case ReadSource(_) => ReadSourceOf(w, w.calls[p])
    case Fill(_, faults) => FillOf(w, w.calls[p], faults)
    case WriteSource(_) => WriteSourceOf(w, p, w.calls[p])
    case Drop(_, faults) => DropOf(w, w.calls[p], faults)
    case Fail(_) => FailOf(w, w.calls[p])
    case _ => Outcome(w, w.calls[p])
  }

  /** The world after a step; a step that does not fit the call's position changes nothing. */
  function Next(w: World, step: Step): World {
    match step
    case StartGet(p, id, cache) => if p in w.calls then w else w.Moved(p, GetStarted(id, cache, w.Returned(cache, id)))
    case StartWrite(p, id, cache, change) => if p in w.calls then w else w.Moved(p, WriteStarted(id, cache, change))
    case Evict(cache, id) => w.(caches := w.caches[cache := w.Entries(cache) - {id}])
    case _ =>
      if step.p in w.calls then
        var outcome := CallStep(w, step.p, step);
        outcome.world.Moved(step.p, outcome.call)
      else w
  }

  function Run(w: World, steps: seq<Step>): World
    decreases |steps|
  {
    if steps == [] then w else Run(Next(w, steps[0]), steps[1..])
  }

  /** Any source contents, empty caches, no call in flight. */
  ghost predicate Initial(w: World) {
    w.poisoned == {} && w.caches == map[] && w.invalidated == map[] && w.returned == map[] &&
    w.legacyLocks == map[] && w.calls == map[]
  }

  // ----- the invariant -----

  /** The source held `content` at version `since` or later. */
  ghost predicate HeldSince(history: seq<Content>, since: nat, content: Content) {
    exists version :: since <= version < |history| && history[version] == content
  }

  ghost predicate CountersOk(w: World) {
    forall cache, id :: w.Returned(cache, id) <= w.Invalidated(cache, id) <= w.Latest(id)
  }

  /** Entries of a cache that is not poisoned are at least as new as the last invalidated write. */
  ghost predicate CacheOk(w: World, cache: CacheId) {
    (cache.Value? ==> w.Entries(cache) == map[]) &&
    (cache !in w.poisoned ==>
      forall id :: id in w.Entries(cache) ==>
        HeldSince(w.History(id), w.Invalidated(cache, id), Some(w.Entries(cache)[id])))
  }

  /** A fill that would still be accepted carries something at least as new as the last invalidated write. */
  ghost predicate FillOk(w: World, cache: CacheId, id: TenantId, generation: nat, record: Record) {
    var now := w.Generation(CoordinatorOf(cache));
    cache.Pointer? ==>
      generation <= now && (generation == now ==> HeldSince(w.History(id), w.Invalidated(cache, id), Some(record)))
  }

  ghost predicate CallOk(w: World, p: ProcId, call: Call) {
    match call
    case GetStarted(id, cache, since) => since <= w.Returned(cache, id)
    case GetMissed(id, cache, since, generation) =>
      since <= w.Returned(cache, id) && generation <= w.Generation(CoordinatorOf(cache))
    case GetRead(id, cache, since, generation, record) =>
      FillOk(w, cache, id, generation, record) && HeldSince(w.History(id), since, Some(record))
    case GetAbsent(id, cache, since) => HeldSince(w.History(id), since, None)
    case GetReturned(id, cache, since, content) => HeldSince(w.History(id), since, content)
    case WriteStarted(_, _, _) => true
    case SwapChecked(_, _, _, _, _) => true
    case Written(id, _, _, version) => version <= w.Latest(id)
    case Refilling(id, cache, _, version, generation) =>
      version <= w.Invalidated(cache, id) && generation <= w.Generation(CoordinatorOf(cache))
    case RefillRead(id, cache, _, version, generation, record) =>
      version <= w.Invalidated(cache, id) && FillOk(w, cache, id, generation, record)
    case WriteReturned(id, cache, _, version) => version <= w.Returned(cache, id)
    case WriteRejected(_, _) => true
    case Failed => true
  }

  ghost predicate Inv(w: World) {
    CountersOk(w) && (forall cache :: CacheOk(w, cache)) && (forall p :: p in w.calls ==> CallOk(w, p, w.calls[p]))
  }

  // ----- what a step may do to everybody else -----

  /** Histories and counters only grow; an invalidation raises the generation of the cache's stripe. */
  ghost predicate Grows(w: World, w': World) {
    (forall coord :: w.Generation(coord) <= w'.Generation(coord)) &&
    (forall id :: w.History(id) <= w'.History(id)) &&
    (forall cache, id :: w.Invalidated(cache, id) <= w'.Invalidated(cache, id)) &&
    (forall cache, id :: w.Returned(cache, id) <= w'.Returned(cache, id)) &&
    (forall cache, id :: FillsAsBefore(w, w', cache) ==> w.Invalidated(cache, id) == w'.Invalidated(cache, id))
  }

  /** Fills of the cache that were accepted before still are. */
  ghost predicate FillsAsBefore(w: World, w': World, cache: CacheId) {
    cache.Pointer? && w.Generation(CoordinatorOf(cache)) == w'.Generation(CoordinatorOf(cache))
  }

  lemma HeldGrows(history: seq<Content>, history': seq<Content>, since: nat, content: Content)
    requires history <= history' && HeldSince(history, since, content)
    ensures HeldSince(history', since, content)
  {
    var version :| since <= version < |history| && history[version] == content;
    assert history'[version] == content;
  }

  lemma HeldNow(w: World, id: TenantId, since: nat)
    requires since <= w.Latest(id)
    ensures HeldSince(w.History(id), since, w.Current(id))
  {
  }

  lemma HeldEarlier(history: seq<Content>, since: nat, since': nat, content: Content)
    requires since' <= since && HeldSince(history, since, content)
    ensures HeldSince(history, since', content)
  {
  }

  lemma OthersKept(w: World, w': World, p: ProcId, call: Call)
    requires CallOk(w, p, call) && Grows(w, w')
    ensures CallOk(w', p, call)
  {
    hide HeldSince;
    match call
    case GetRead(id, cache, since, generation, record) =>
      FillKept(w, w', cache, id, generation, record);
      HeldGrows(w.History(id), w'.History(id), since, Some(record));
    case GetAbsent(id, cache, since) => HeldGrows(w.History(id), w'.History(id), since, None);
    case GetReturned(id, cache, since, content) => HeldGrows(w.History(id), w'.History(id), since, content);
    case RefillRead(id, cache, _, version, generation, record) => FillKept(w, w', cache, id, generation, record);
    case _ =>
  }

  lemma FillKept(w: World, w': World, cache: CacheId, id: TenantId, generation: nat, record: Record)
    requires FillOk(w, cache, id, generation, record) && Grows(w, w')
    ensures FillOk(w', cache, id, generation, record)
  {
    if cache.Pointer? && generation == w'.Generation(CoordinatorOf(cache)) {
      assert FillsAsBefore(w, w', cache);
      HeldGrows(w.History(id), w'.History(id), w.Invalidated(cache, id), Some(record));
    }
  }

  /** A step keeps the invariant when it grows the world, keeps the counters, the caches and its own call right. */
  lemma StepKeeps(w: World, w': World, p: ProcId)
    requires Inv(w) && Grows(w, w') && CountersOk(w') && (forall cache :: CacheOk(w', cache))
    requires forall q :: q in w'.calls && q != p ==> q in w.calls && w'.calls[q] == w.calls[q]
    requires p in w'.calls ==> CallOk(w', p, w'.calls[p])
    ensures Inv(w')
  {
    hide CallOk, CacheOk, Grows, CountersOk;
    forall q | q in w'.calls
      ensures CallOk(w', q, w'.calls[q])
    {
      if q != p {
        OthersKept(w, w', q, w.calls[q]);
      }
    }
  }

  /** Steps that touch the caches and one call only. */
  ghost predicate SameCounters(w: World, w': World) {
    w'.history == w.history && w'.invalidated == w.invalidated && w'.returned == w.returned &&
    forall coord :: w.Generation(coord) <= w'.Generation(coord)
  }

  lemma SameCountersGrow(w: World, w': World)
    requires SameCounters(w, w') && CountersOk(w)
    ensures Grows(w, w') && CountersOk(w')
  {
  }

  lemma QuietStep(w: World, w': World, p: ProcId, call: Call)
    requires Inv(w) && SameCounters(w, w') && w'.calls == w.calls[p := call]
    requires (forall cache :: CacheOk(w', cache)) && CallOk(w', p, call)
    ensures Inv(w')
  {
    hide CallOk, CacheOk, CountersOk, Grows;
    SameCountersGrow(w, w');
    StepKeeps(w, w', p);
  }

  /** A change around the calls keeps them all right. */
  lemma WorldKeeps(w: World, w': World)
    requires Inv(w) && Grows(w, w') && CountersOk(w') && (forall cache :: CacheOk(w', cache)) && w'.calls == w.calls
    ensures Inv(w')
  {
    hide CallOk, CacheOk, Grows, CountersOk;
    forall q | q in w'.calls
      ensures CallOk(w', q, w'.calls[q])
    {
      OthersKept(w, w', q, w.calls[q]);
    }
  }

  lemma NotedGrows(w: World, id: TenantId, cache: CacheId, version: nat)
    requires CountersOk(w) && version <= w.Invalidated(cache, id)
    ensures var w' := Noted(w, id, cache, version);
      Grows(w, w') && CountersOk(w') && version <= w'.Returned(cache, id)
  {
  }

  lemma FinishedKeeps(w: World, p: ProcId, id: TenantId, cache: CacheId, change: Change, version: nat)
    requires Inv(w) && version <= w.Invalidated(cache, id)
    ensures var o := FinishedOf(w, id, cache, change, version); Inv(o.world.Moved(p, o.call))
  {
    var w' := Noted(w, id, cache, version);
    NotedGrows(w, id, cache, version);
    assert CountersOk(w) && (forall c :: CacheOk(w, c));
    SameCaches(w, w');
    assert CallOk(w', p, WriteReturned(id, cache, change, version));
    hide CacheOk, CountersOk, Grows, CallOk, Noted;
    WorldKeeps(w, w');
    StartKeeps(w', p, WriteReturned(id, cache, change, version));
  }

  // ----- caches under one section -----

  /** Each entry was there before, or is the record just filled; otherwise the cache is poisoned. */
  ghost predicate EntriesFrom(s: Shared, s': Shared, filled: Option<(TenantId, Record)>) {
    s.generation <= s'.generation &&
    (!s'.poisoned ==>
      forall id :: id in s'.entries ==>
        (!s.poisoned && id in s.entries && s'.entries[id] == s.entries[id]) || filled == Some((id, s'.entries[id])))
  }

  lemma LookUpEntries(s: Shared, id: TenantId, faults: Faults)
    ensures var found := LookedUp(s, id, faults);
      EntriesFrom(s, found.shared, None) && found.generation == found.shared.generation &&
      (found.hit.Some? ==>
        !found.shared.poisoned && id in found.shared.entries && found.shared.entries[id] == found.hit.value)
  {
  }

  lemma InvalidateEntries(s: Shared, id: TenantId, faults: Faults)
    ensures var s' := TenantCache.Invalidated(s, id, faults);
      EntriesFrom(s, s', None) && s.generation < s'.generation && (!s'.poisoned ==> id !in s'.entries)
  {
  }

  lemma FillEntries(s: Shared, id: TenantId, record: Record, generation: nat, faults: Faults)
    ensures EntriesFrom(s, Filled(s, id, record, generation, faults),
                        if generation == s.generation then Some((id, record)) else None)
  {
  }

  lemma PutKeepsCaches(w: World, cache: CacheId, s': Shared, filled: Option<(TenantId, Record)>)
    requires (forall c :: CacheOk(w, c)) && cache.Pointer?
    requires EntriesFrom(w.View(cache), s', filled)
    requires filled.Some? ==>
      HeldSince(w.History(filled.value.0), w.Invalidated(cache, filled.value.0), Some(filled.value.1))
    ensures forall c :: CacheOk(w.Put(cache, s'), c)
    ensures SameCounters(w, w.Put(cache, s')) && w.Put(cache, s').View(cache) == s'
  {
    hide HeldSince;
    var w' := w.Put(cache, s');
    assert CacheOk(w, cache);
    forall c
      ensures CacheOk(w', c)
    {
      assert CacheOk(w, c);
      assert c != cache ==> w'.Entries(c) == w.Entries(c) && (c in w'.poisoned <==> c in w.poisoned);
    }
  }

  /** Caches read only the histories, the invalidation counters, the poison marks and the entries. */
  lemma SameCaches(w: World, w': World)
    requires (forall c :: CacheOk(w, c)) && w'.caches == w.caches && w'.poisoned == w.poisoned
    requires forall id :: w.History(id) <= w'.History(id)
    requires w'.invalidated == w.invalidated
    ensures forall c :: CacheOk(w', c)
  {
    hide HeldSince;
    forall c
      ensures CacheOk(w', c)
    {
      assert CacheOk(w, c);
      forall id | c !in w'.poisoned && id in w'.Entries(c)
        ensures HeldSince(w'.History(id), w'.Invalidated(c, id), Some(w'.Entries(c)[id]))
      {
        HeldGrows(w.History(id), w'.History(id), w.Invalidated(c, id), Some(w.Entries(c)[id]));
      }
    }
  }

  lemma PutStep(w: World, cache: CacheId, s': Shared, filled: Option<(TenantId, Record)>)
    requires Inv(w) && cache.Pointer? && EntriesFrom(w.View(cache), s', filled)
    requires filled.Some? ==>
      HeldSince(w.History(filled.value.0), w.Invalidated(cache, filled.value.0), Some(filled.value.1))
    ensures Inv(w.Put(cache, s'))
  {
    hide CallOk, HeldSince, EntriesFrom, CacheOk, CountersOk, Grows;
    PutKeepsCaches(w, cache, s', filled);
    SameCountersGrow(w, w.Put(cache, s'));
    WorldKeeps(w, w.Put(cache, s'));
  }

  // ----- the steps keep the invariant -----

  lemma StartKeeps(w: World, p: ProcId, call: Call)
    requires Inv(w) && CallOk(w.Moved(p, call), p, call)
    ensures Inv(w.Moved(p, call))
  {
    hide CallOk, CacheOk, CountersOk;
    SameCaches(w, w.Moved(p, call));
    QuietStep(w, w.Moved(p, call), p, call);
  }

  lemma LookUpKeeps(w: World, p: ProcId, faults: Faults)
    requires Inv(w) && p in w.calls && w.calls[p].GetStarted? && w.calls[p].cache.Pointer?
    ensures var o := LookUpOf(w, w.calls[p], faults); Inv(o.world.Moved(p, o.call))
  {
    hide *;
    var call := w.calls[p];
    LookUpPuts(w, p, faults);
    var found := LookedUp(w.View(call.cache), call.id, faults);
    var put := w.Put(call.cache, found.shared);
    PutStep(w, call.cache, found.shared, None);
    InvCache(put, call.cache);
    LookUpCall(w, p, call, found);
    StartKeeps(put, p, LookUpOf(w, call, faults).call);
  }

  /** What a look-up through a pointer does. */
  lemma LookUpPuts(w: World, p: ProcId, faults: Faults)
    requires Inv(w) && p in w.calls && w.calls[p].GetStarted? && w.calls[p].cache.Pointer?
    ensures var call := w.calls[p];
      var found := LookedUp(w.View(call.cache), call.id, faults);
      EntriesFrom(w.View(call.cache), found.shared, None) && found.generation == found.shared.generation &&
      (found.hit.Some? ==>
        !found.shared.poisoned && call.id in found.shared.entries &&
        found.shared.entries[call.id] == found.hit.value) &&
      call.since <= w.Returned(call.cache, call.id) <= w.Invalidated(call.cache, call.id) &&
      LookUpOf(w, call, faults) == Outcome(w.Put(call.cache, found.shared),
        if found.hit.Some? then GetReturned(call.id, call.cache, call.since, found.hit)
        else GetMissed(call.id, call.cache, call.since, found.generation))
  {
    var call := w.calls[p];
    assert CallOk(w, p, call) && CountersOk(w);
    LookUpEntries(w.View(call.cache), call.id, faults);
    CountersAt(w, call.cache, call.id);
    hide LookedUp, EntriesFrom, CountersOk, HeldSince, CoordinatorOf;
  }

  lemma InvCache(w: World, cache: CacheId)
    requires Inv(w)
    ensures CacheOk(w, cache)
  {
  }

  lemma BypassKeeps(w: World, p: ProcId, faults: Faults)
    requires Inv(w) && p in w.calls && w.calls[p].GetStarted? && w.calls[p].cache.Value?
    ensures var o := LookUpOf(w, w.calls[p], faults); Inv(o.world.Moved(p, o.call))
  {
    var call := w.calls[p];
    assert CallOk(w, p, call);
    hide Inv, HeldSince;
    StartKeeps(w, p, GetMissed(call.id, call.cache, call.since, 0));
  }

  lemma LookUpCall(w: World, p: ProcId, call: Call, found: Lookup)
    requires call.GetStarted? && call.since <= w.Returned(call.cache, call.id) <= w.Invalidated(call.cache, call.id)
    requires found.generation == found.shared.generation
    requires found.hit.Some? ==> !found.shared.poisoned && call.id in found.shared.entries &&
                                 found.shared.entries[call.id] == found.hit.value
    requires var put := w.Put(call.cache, found.shared); CacheOk(put, call.cache)
    ensures var put := w.Put(call.cache, found.shared);
      var next :=
        if found.hit.Some? then GetReturned(call.id, call.cache, call.since, found.hit)
        else GetMissed(call.id, call.cache, call.since, found.generation);
      CallOk(put.Moved(p, next), p, next)
  {
    hide HeldSince;
    if found.hit.Some? {
      var put := w.Put(call.cache, found.shared);
      assert call.cache !in put.poisoned && put.Entries(call.cache) == found.shared.entries;
      assert put.History(call.id) == w.History(call.id) &&
        put.Invalidated(call.cache, call.id) == w.Invalidated(call.cache, call.id);
      HeldEarlier(w.History(call.id), w.Invalidated(call.cache, call.id), call.since, found.hit);
    }
  }

  lemma ReadKeeps(w: World, p: ProcId)
    requires Inv(w) && p in w.calls
    ensures var o := ReadSourceOf(w, w.calls[p]); Inv(o.world.Moved(p, o.call))
  {
    var call := w.calls[p];
    assert CallOk(w, p, call) && CountersOk(w);
    if call.Refilling? && w.Current(call.id).None? {
      hide CacheOk, CountersOk, HeldSince, Inv;
      FinishedKeeps(w, p, call.id, call.cache, call.change, call.version);
    } else {
      hide CacheOk, CountersOk, HeldSince, Inv, CallOk;
      ReadCall(w, p, call);
      StartKeeps(w, p, ReadSourceOf(w, call).call);
    }
  }

  /** A call that has read the source holds a record no older than its start and than the last invalidation. */
  lemma ReadCall(w: World, p: ProcId, call: Call)
    requires CallOk(w, p, call) && CountersOk(w) && !(call.Refilling? && w.Current(call.id).None?)
    ensures var next := ReadSourceOf(w, call).call; CallOk(w.Moved(p, next), p, next)
  {
    if call.GetMissed? || call.Refilling? {
      CountersAt(w, call.cache, call.id);
      hide HeldSince, CountersOk;
      HeldNow(w, call.id, w.Invalidated(call.cache, call.id));
      if call.GetMissed? {
        HeldNow(w, call.id, call.since);
      }
    }
  }

  lemma CountersAt(w: World, cache: CacheId, id: TenantId)
    requires CountersOk(w)
    ensures w.Returned(cache, id) <= w.Invalidated(cache, id) <= w.Latest(id)
  {
  }

  lemma FilledKeeps(w: World, cache: CacheId, id: TenantId, record: Record, generation: nat, faults: Faults)
    requires Inv(w) && FillOk(w, cache, id, generation, record)
    ensures Inv(FilledBy(w, cache, id, record, generation, faults))
  {
    if cache.Pointer? {
      var s := w.View(cache);
      FillEntries(s, id, record, generation, faults);
      hide Filled, HeldSince, EntriesFrom, Inv;
      PutStep(w, cache, Filled(s, id, record, generation, faults),
              if generation == s.generation then Some((id, record)) else None);
    }
  }

  lemma FillKeeps(w: World, p: ProcId, faults: Faults)
    requires Inv(w) && p in w.calls
    ensures var o := FillOf(w, w.calls[p], faults); Inv(o.world.Moved(p, o.call))
  {
    var call := w.calls[p];
    assert CallOk(w, p, call);
    FillCall(w, p, call, faults);
    hide Inv, HeldSince, FilledBy, CallOk, FillOk;
    if call.GetRead? {
      FilledKeeps(w, call.cache, call.id, call.record, call.generation, faults);
      StartKeeps(FillOf(w, call, faults).world, p, FillOf(w, call, faults).call);
    } else if call.RefillRead? {
      FilledKeeps(w, call.cache, call.id, call.record, call.generation, faults);
      var next := FilledBy(w, call.cache, call.id, call.record, call.generation, faults);
      FinishedKeeps(next, p, call.id, call.cache, call.change, call.version);
    } else {
      StartKeeps(w, p, call);
    }
  }

  /** What a fill's call knows, after the fill. */
  lemma FillCall(w: World, p: ProcId, call: Call, faults: Faults)
    requires CallOk(w, p, call)
    ensures call.GetRead? || call.RefillRead? ==>
      FillOk(w, call.cache, call.id, call.generation, call.record) &&
      FilledBy(w, call.cache, call.id, call.record, call.generation, faults).invalidated == w.invalidated
    ensures call.GetRead? ==> var o := FillOf(w, call, faults); CallOk(o.world.Moved(p, o.call), p, o.call)
    ensures call.RefillRead? ==>
      var next := FilledBy(w, call.cache, call.id, call.record, call.generation, faults);
      call.version <= next.Invalidated(call.cache, call.id)
    ensures !call.GetRead? && !call.RefillRead? ==> CallOk(w.Moved(p, call), p, call)
  {
    hide HeldSince, FilledBy, Max, CoordinatorOf;
  }

  lemma WriteKeeps(w: World, p: ProcId)
    requires Inv(w) && p in w.calls
    ensures var o := WriteSourceOf(w, p, w.calls[p]); Inv(o.world.Moved(p, o.call))
  {
    var call := w.calls[p];
    if call.WriteStarted? && (w.atomicSwap || CoordinatorOf(call.cache) !in w.legacyLocks) {
      hide Inv, WriteSourceOf, CoordinatorOf;
      FirstCallKeeps(w, p);
    } else if call.SwapChecked? {
      hide Inv, WriteSourceOf;
      SecondCallKeeps(w, p);
    } else {
      hide Inv, CoordinatorOf;
      CallStaysKeeps(w, p);
    }
  }

  lemma FirstCallKeeps(w: World, p: ProcId)
    requires Inv(w) && p in w.calls && w.calls[p].WriteStarted?
    requires w.atomicSwap || CoordinatorOf(w.calls[p].cache) !in w.legacyLocks
    ensures var o := WriteSourceOf(w, p, w.calls[p]); Inv(o.world.Moved(p, o.call))
  {
    var call := w.calls[p];
    var o, coord := WriteSourceOf(w, p, call), CoordinatorOf(call.cache);
    hide CacheOk, CountersOk, HeldSince, Inv, Applied, Mismatch, RejectedAs, CoordinatorOf;
    if !w.atomicSwap && call.change.Swap? {
      var problem := Mismatch(call.change.expected, w.Current(call.change.compared));
      if problem.Some? {
        RejectedOk(w, p, call.id, call.cache, call.change, problem.value);
        LockStep(w, p, w.legacyLocks, o.call);
      } else {
        LockStep(w, p, w.legacyLocks[coord := p], o.call);
      }
    } else {
      var outcome := Applied(call.id, call.change, w.Current(call.id));
      if outcome.Err? {
        RejectedOk(w, p, call.id, call.cache, call.change, outcome.error);
        LockStep(w, p, w.legacyLocks, o.call);
      } else {
        CommitStep(w, p, w.legacyLocks, call.id, call.cache, call.change, outcome.value);
      }
    }
  }

  lemma SecondCallKeeps(w: World, p: ProcId)
    requires Inv(w) && p in w.calls && w.calls[p].SwapChecked?
    ensures var o := WriteSourceOf(w, p, w.calls[p]); Inv(o.world.Moved(p, o.call))
  {
    var call := w.calls[p];
    var o, coord := WriteSourceOf(w, p, call), CoordinatorOf(call.cache);
    hide CacheOk, CountersOk, HeldSince, Inv, Applied, RejectedAs, CoordinatorOf;
    var outcome := Applied(call.id, Update(call.updated), w.Current(call.id));
    var swap := Swap(call.compared, call.expected, call.updated);
    if outcome.Err? {
      RejectedOk(w.Unlocked(coord), p, call.id, call.cache, swap, outcome.error);
      LockStep(w, p, w.legacyLocks - {coord}, o.call);
    } else {
      CommitStep(w, p, w.legacyLocks - {coord}, call.id, call.cache, swap, outcome.value);
    }
  }

  lemma RejectedOk(w: World, p: ProcId, id: TenantId, cache: CacheId, change: Change, error: SourceError)
    ensures CallOk(w.Moved(p, RejectedAs(id, cache, change, error)), p, RejectedAs(id, cache, change, error))
  {
  }

  /** The legacy locks play no part in the invariant. */
  lemma LockStep(w: World, p: ProcId, locks: map<CoordinatorId, ProcId>, call: Call)
    requires Inv(w) && CallOk(w.(legacyLocks := locks).Moved(p, call), p, call)
    ensures Inv(w.(legacyLocks := locks).Moved(p, call))
  {
    hide CacheOk, HeldSince, CallOk;
    var w' := w.(legacyLocks := locks).Moved(p, call);
    SameCaches(w, w');
    StepKeeps(w, w', p);
  }

  /** The history of one tenant is one longer, and nothing else about the counters has changed. */
  ghost predicate OneMore(w: World, w': World, id: TenantId) {
    w'.generations == w.generations &&
    w'.Latest(id) == w.Latest(id) + 1 && w.History(id) <= w'.History(id) &&
    (forall other :: other != id ==> w'.History(other) == w.History(other)) &&
    w'.invalidated == w.invalidated && w'.returned == w.returned
  }

  lemma CommitIsOneMore(w: World, locks: map<CoordinatorId, ProcId>, p: ProcId, id: TenantId, cache: CacheId,
                        change: Change, content: Content)
    ensures var o := CommittedOf(w.(legacyLocks := locks), id, cache, change, content);
      OneMore(w, o.world.Moved(p, o.call), id)
  {
    var w' := CommittedOf(w.(legacyLocks := locks), id, cache, change, content).world;
    assert w'.History(id) == w.History(id) + [content];
  }

  lemma OneMoreGrows(w: World, w': World, id: TenantId)
    requires CountersOk(w) && OneMore(w, w', id)
    ensures Grows(w, w') && CountersOk(w')
  {
    assert forall other :: w.History(other) <= w'.History(other);
    assert forall other :: w.Latest(other) <= w'.Latest(other);
  }

  lemma CommitStep(w: World, p: ProcId, locks: map<CoordinatorId, ProcId>, id: TenantId, cache: CacheId, change: Change,
                   content: Content)
    requires Inv(w)
    ensures var o := CommittedOf(w.(legacyLocks := locks), id, cache, change, content); Inv(o.world.Moved(p, o.call))
  {
    var o := CommittedOf(w.(legacyLocks := locks), id, cache, change, content);
    var w' := o.world.Moved(p, o.call);
    CommitIsOneMore(w, locks, p, id, cache, change, content);
    OneMoreGrows(w, w', id);
    hide CacheOk, CountersOk, HeldSince, Grows;
    SameCaches(w, w');
    StepKeeps(w, w', p);
  }

  /** What a dropping call knows, after the drop. */
  lemma DropCall(w: World, p: ProcId, call: Call, faults: Faults)
    requires CallOk(w, p, call)
    ensures call.GetAbsent? || call.WriteRejected? ==>
      var o := DropOf(w, call, faults); CallOk(o.world.Moved(p, o.call), p, o.call)
    ensures call.Written? ==> call.version <= w.Latest(call.id)
    ensures !call.GetAbsent? && !call.WriteRejected? && !call.Written? ==> CallOk(w.Moved(p, call), p, call)
  {
    hide Dropped, Superseded, HeldSince, Max, CoordinatorOf;
  }

  lemma RefillCall(w: World, p: ProcId, id: TenantId, cache: CacheId, change: Change, version: nat)
    requires version <= w.Invalidated(cache, id)
    ensures var call := Refilling(id, cache, change, version, w.Generation(CoordinatorOf(cache)));
      CallOk(w.Moved(p, call), p, call)
  {
  }

  lemma DropKeeps(w: World, p: ProcId, faults: Faults)
    requires Inv(w) && p in w.calls
    ensures var o := DropOf(w, w.calls[p], faults); Inv(o.world.Moved(p, o.call))
  {
    var call := w.calls[p];
    assert CallOk(w, p, call);
    DropCall(w, p, call, faults);
    hide TenantCache.Invalidated, HeldSince, Inv, Dropped, Superseded, CallOk, CoordinatorOf;
    if call.GetAbsent? || call.WriteRejected? {
      DroppedKeeps(w, call.cache, call.id, faults);
      StartKeeps(Dropped(w, call.cache, call.id, faults), p, DropOf(w, call, faults).call);
    } else if call.Written? {
      var next := Superseded(w, call.cache, call.id, faults, call.version);
      SupersededKeeps(w, call.cache, call.id, faults, call.version);
      if call.change.Delete? || call.cache.Value? {
        FinishedKeeps(next, p, call.id, call.cache, call.change, call.version);
      } else {
        RefillCall(next, p, call.id, call.cache, call.change, call.version);
        StartKeeps(next, p, DropOf(w, call, faults).call);
      }
    } else {
      StartKeeps(w, p, call);
    }
  }

  lemma DroppedKeeps(w: World, cache: CacheId, id: TenantId, faults: Faults)
    requires Inv(w)
    ensures Inv(Dropped(w, cache, id, faults))
  {
    if cache.Pointer? {
      InvalidateEntries(w.View(cache), id, faults);
      hide TenantCache.Invalidated, Inv, EntriesFrom;
      PutStep(w, cache, TenantCache.Invalidated(w.View(cache), id, faults), None);
    }
  }

  /** An invalidation that raises the generation of its stripe, where there is one to raise. */
  lemma RaisedGrows(w: World, w': World, cache: CacheId, id: TenantId, version: nat)
    requires CountersOk(w) && version <= w.Latest(id) && w'.history == w.history && w'.returned == w.returned
    requires w'.invalidated == w.invalidated[(cache, id) := Max(w.Invalidated(cache, id), version)]
    requires forall coord :: w.Generation(coord) <= w'.Generation(coord)
    requires !FillsAsBefore(w, w', cache)
    ensures Grows(w, w') && CountersOk(w') && version <= w'.Invalidated(cache, id)
  {
    hide CoordinatorOf, FillsAsBefore;
  }

  lemma SupersededGrows(w: World, cache: CacheId, id: TenantId, faults: Faults, version: nat)
    requires CountersOk(w) && version <= w.Latest(id)
    requires w.View(cache).generation < TenantCache.Invalidated(w.View(cache), id, faults).generation
    ensures var w' := Superseded(w, cache, id, faults, version);
      Grows(w, w') && CountersOk(w') && version <= w'.Invalidated(cache, id)
  {
    var w' := Superseded(w, cache, id, faults, version);
    hide TenantCache.Invalidated, CoordinatorOf, CountersOk, Grows, Max;
    RaisedGrows(w, w', cache, id, version);
  }

  lemma SupersededCaches(w: World, cache: CacheId, id: TenantId, faults: Faults, version: nat)
    requires forall c :: CacheOk(w, c)
    ensures forall c :: CacheOk(Superseded(w, cache, id, faults, version), c)
  {
    InvalidateEntries(w.View(cache), id, faults);
    hide TenantCache.Invalidated, HeldSince;
    var put, w' := Dropped(w, cache, id, faults), Superseded(w, cache, id, faults, version);
    if cache.Pointer? {
      PutKeepsCaches(w, cache, TenantCache.Invalidated(w.View(cache), id, faults), None);
    }
    forall c
      ensures CacheOk(w', c)
    {
      assert CacheOk(put, c);
      forall t | c !in w'.poisoned && t in w'.Entries(c)
        ensures HeldSince(w'.History(t), w'.Invalidated(c, t), Some(w'.Entries(c)[t]))
      {
        assert (c, t) != (cache, id);
        assert w'.Invalidated(c, t) == put.Invalidated(c, t);
      }
    }
  }

  lemma SupersededKeeps(w: World, cache: CacheId, id: TenantId, faults: Faults, version: nat)
    requires Inv(w) && version <= w.Latest(id)
    ensures var w' := Superseded(w, cache, id, faults, version); Inv(w') && version <= w'.Invalidated(cache, id)
  {
    InvalidateEntries(w.View(cache), id, faults);
    hide CacheOk, CountersOk, HeldSince, TenantCache.Invalidated, EntriesFrom, Grows;
    SupersededGrows(w, cache, id, faults, version);
    SupersededCaches(w, cache, id, faults, version);
    WorldKeeps(w, Superseded(w, cache, id, faults, version));
  }

  /** What a failing call knows, when it does not return as a write. */
  lemma FailCall(w: World, p: ProcId, call: Call)
    requires CallOk(w, p, call) && !call.Refilling?
    ensures var o := FailOf(w, call);
      o.world == w.(legacyLocks := o.world.legacyLocks) && CallOk(o.world.Moved(p, o.call), p, o.call)
  {
    hide HeldSince, CoordinatorOf;
  }

  lemma FailKeeps(w: World, p: ProcId)
    requires Inv(w) && p in w.calls
    ensures var o := FailOf(w, w.calls[p]); Inv(o.world.Moved(p, o.call))
  {
    var call := w.calls[p];
    assert CallOk(w, p, call) && (call.Refilling? ==> call.version <= w.Invalidated(call.cache, call.id));
    if call.Refilling? {
      hide CacheOk, CountersOk, HeldSince, Inv, CoordinatorOf, FinishedOf, CallOk;
      FinishedKeeps(w, p, call.id, call.cache, call.change, call.version);
    } else {
      FailCall(w, p, call);
      hide *;
      LockStep(w, p, FailOf(w, call).world.legacyLocks, FailOf(w, call).call);
    }
  }

  lemma EvictKeeps(w: World, cache: CacheId, id: TenantId)
    requires Inv(w)
    ensures Inv(Next(w, Evict(cache, id)))
  {
    var w' := w.(caches := w.caches[cache := w.Entries(cache) - {id}]);
    assert Next(w, Evict(cache, id)) == w';
    assert CountersOk(w) && (forall c :: CacheOk(w, c)) && SameCounters(w, w') && w'.calls == w.calls;
    hide CacheOk, HeldSince, Inv, CountersOk, Grows, Next, SameCounters;
    EvictCaches(w, cache, id, w');
    SameCountersGrow(w, w');
    WorldKeeps(w, w');
  }

  lemma EvictCaches(w: World, cache: CacheId, id: TenantId, w': World)
    requires forall c :: CacheOk(w, c)
    requires w' == w.(caches := w.caches[cache := w.Entries(cache) - {id}])
    ensures forall c :: CacheOk(w', c)
  {
    hide HeldSince;
    forall c
      ensures CacheOk(w', c)
    {
      assert CacheOk(w, c);
      EntriesLeft(w, cache, id, w', c);
    }
  }

  lemma EntriesLeft(w: World, cache: CacheId, id: TenantId, w': World, c: CacheId)
    requires w' == w.(caches := w.caches[cache := w.Entries(cache) - {id}])
    ensures forall t :: t in w'.Entries(c) ==> t in w.Entries(c) && w'.Entries(c)[t] == w.Entries(c)[t]
    ensures w.Entries(c) == map[] ==> w'.Entries(c) == map[]
  {
  }

  lemma CallStepKeeps(w: World, p: ProcId, step: Step)
    requires Inv(w) && p in w.calls
    ensures var o := CallStep(w, p, step); Inv(o.world.Moved(p, o.call))
  {
    hide LookUpOf, ReadSourceOf, FillOf, WriteSourceOf, DropOf, FailOf, CallOk, CacheOk, CountersOk;
    match step
    case LookUp(_, faults) =>
      if w.calls[p].GetStarted? && w.calls[p].cache.Pointer? {
        LookUpKeeps(w, p, faults);
      } else if w.calls[p].GetStarted? {
        BypassKeeps(w, p, faults);
      } else {
        LookUpOther(w, p, faults);
        CallStaysKeeps(w, p);
      }
    case ReadSource(_) => ReadKeeps(w, p);
    case Fill(_, faults) => FillKeeps(w, p, faults);
    case WriteSource(_) => WriteKeeps(w, p);
    case Drop(_, faults) => DropKeeps(w, p, faults);
    case Fail(_) => FailKeeps(w, p);
    case _ => CallStaysKeeps(w, p);
  }

  lemma LookUpOther(w: World, p: ProcId, faults: Faults)
    requires p in w.calls && !w.calls[p].GetStarted?
    ensures LookUpOf(w, w.calls[p], faults) == Outcome(w, w.calls[p])
  {
  }

  lemma CallStaysKeeps(w: World, p: ProcId)
    requires Inv(w) && p in w.calls
    ensures Inv(w.Moved(p, w.calls[p]))
  {
    assert w.Moved(p, w.calls[p]).calls == w.calls;
  }

  lemma NextKeeps(w: World, step: Step)
    requires Inv(w)
    ensures Inv(Next(w, step))
  {
    hide Inv, CallStep;
    match step
    case StartGet(p, id, cache) =>
      if p !in w.calls {
        StartKeeps(w, p, GetStarted(id, cache, w.Returned(cache, id)));
      }
    case StartWrite(p, id, cache, change) =>
      if p !in w.calls {
        StartKeeps(w, p, WriteStarted(id, cache, change));
      }
    case Evict(cache, id) => EvictKeeps(w, cache, id);
    case _ =>
      if step.p in w.calls {
        CallStepKeeps(w, step.p, step);
      }
  }

  lemma {:induction false} RunKeeps(w: World, steps: seq<Step>)
    requires Inv(w)
    ensures Inv(Run(w, steps))
    decreases |steps|
  {
    if steps != [] {
      NextKeeps(w, steps[0]);
      RunKeeps(Next(w, steps[0]), steps[1..]);
    }
  }

  lemma InitialInv(w: World)
    requires Initial(w)
    ensures Inv(w)
  {
  }

  // ----- what callers observe -----

  /** A Get of `id` through `cache` that started when the writes up to `since` had returned, or its failure. */
  predicate IsGet(call: Call, id: TenantId, cache: CacheId, since: nat) {
    call.Failed? ||
    ((call.GetStarted? || call.GetMissed? || call.GetRead? || call.GetAbsent? || call.GetReturned?) &&
     call.id == id && call.cache == cache && call.since == since)
  }

  lemma GetStaysGet(w: World, p: ProcId, step: Step, id: TenantId, cache: CacheId, since: nat)
    requires p in w.calls && IsGet(w.calls[p], id, cache, since)
    ensures IsGet(CallStep(w, p, step).call, id, cache, since)
  {
    hide LookedUp, Filled, TenantCache.Invalidated, Applied, CommittedOf, FinishedOf, Dropped, Superseded;
  }

  lemma GetStays(w: World, step: Step, p: ProcId, id: TenantId, cache: CacheId, since: nat)
    requires p in w.calls && IsGet(w.calls[p], id, cache, since)
    ensures p in Next(w, step).calls && IsGet(Next(w, step).calls[p], id, cache, since)
  {
    hide CallStep, IsGet;
    if !step.StartGet? && !step.StartWrite? && !step.Evict? && step.p == p {
      GetStaysGet(w, p, step, id, cache, since);
    }
  }

  lemma {:induction false} GetStaysInRun(w: World, steps: seq<Step>, p: ProcId, id: TenantId, cache: CacheId,
          since: nat)
    requires p in w.calls && IsGet(w.calls[p], id, cache, since)
    ensures p in Run(w, steps).calls && IsGet(Run(w, steps).calls[p], id, cache, since)
    decreases |steps|
  {
    hide Next, IsGet;
    if steps != [] {
      GetStays(w, steps[0], p, id, cache, since);
      GetStaysInRun(Next(w, steps[0]), steps[1..], p, id, cache, since);
    }
  }

  lemma ReturnedBefore(w: World, writer: ProcId)
    requires Inv(w) && writer in w.calls && w.calls[writer].WriteReturned?
    ensures w.calls[writer].version <= w.Returned(w.calls[writer].cache, w.calls[writer].id)
  {
    assert CallOk(w, writer, w.calls[writer]);
  }

  lemma GetIsFresh(w: World, after: seq<Step>, reader: ProcId, id: TenantId, cache: CacheId, ended: World)
    requires Inv(w) && reader !in w.calls && ended == Run(Next(w, StartGet(reader, id, cache)), after)
    requires reader in ended.calls && ended.calls[reader].GetReturned?
    ensures ended.calls[reader].id == id && ended.calls[reader].cache == cache
    ensures HeldSince(ended.History(id), w.Returned(cache, id), ended.calls[reader].content)
  {
    var asked := Next(w, StartGet(reader, id, cache));
    NextKeeps(w, StartGet(reader, id, cache));
    RunKeeps(asked, after);
    assert asked.calls[reader] == GetStarted(id, cache, w.Returned(cache, id));
    hide Run, Next;
    GetStaysInRun(asked, after, reader, id, cache, w.Returned(cache, id));
    assert CallOk(ended, reader, ended.calls[reader]);
  }

  /**
   In every run: when a write through a cache has returned and a Get through the same cache starts after
   it, the Get yields what the source held at the write's version or later, never anything older.
   */
  lemma GetAfterWriteIsFresh(w: World, before: seq<Step>, after: seq<Step>, writer: ProcId, reader: ProcId,
                             id: TenantId, cache: CacheId, started: World, ended: World)
    requires Initial(w) && started == Run(w, before)
    requires writer in started.calls && started.calls[writer].WriteReturned?
    requires started.calls[writer].id == id && started.calls[writer].cache == cache
    requires reader !in started.calls && ended == Run(Next(started, StartGet(reader, id, cache)), after)
    requires reader in ended.calls && ended.calls[reader].GetReturned?
    ensures ended.calls[reader].id == id
    ensures HeldSince(ended.History(id), started.calls[writer].version, ended.calls[reader].content)
  {
    InitialInv(w);
    RunKeeps(w, before);
    hide Run, Next, Inv, HeldSince;
    ReturnedBefore(started, writer);
    GetIsFresh(started, after, reader, id, cache, ended);
    HeldEarlier(ended.History(id), started.Returned(cache, id), started.calls[writer].version,
      ended.calls[reader].content);
  }

  /** Once every write to a tenant has invalidated its entry, a usable cache holds the source's current record. */
  lemma QuietCacheIsCurrent(w: World, steps: seq<Step>, cache: CacheId, id: TenantId)
    requires Initial(w)
    requires var w' := Run(w, steps);
      cache !in w'.poisoned && id in w'.Entries(cache) && w'.Invalidated(cache, id) == w'.Latest(id)
    ensures Some(Run(w, steps).Entries(cache)[id]) == Run(w, steps).Current(id)
  {
    InitialInv(w);
    RunKeeps(w, steps);
    assert CacheOk(Run(w, steps), cache);
  }

  lemma SectionsClearEmpty(s: Shared, id: TenantId, record: Record, generation: nat, faults: Faults)
    requires s.poisoned
    ensures var s' := LookedUp(s, id, faults).shared; !s'.poisoned ==> s'.entries == map[]
    ensures var s' := TenantCache.Invalidated(s, id, faults); !s'.poisoned ==> s'.entries == map[]
    ensures Filled(s, id, record, generation, faults) == s
  {
  }

  lemma LookUpLifts(w: World, call: Call, faults: Faults, cache: CacheId)
    requires cache in w.poisoned && cache !in LookUpOf(w, call, faults).world.poisoned
    ensures LookUpOf(w, call, faults).world.Entries(cache) == map[]
  {
    SectionsClearEmpty(w.View(cache), call.id, "", 0, faults);
    hide LookedUp;
  }

  lemma FillLifts(w: World, call: Call, faults: Faults, cache: CacheId)
    requires cache in w.poisoned
    ensures cache in FillOf(w, call, faults).world.poisoned
  {
    if call.GetRead? || call.RefillRead? {
      SectionsClearEmpty(w.View(cache), call.id, call.record, call.generation, faults);
      hide Filled;
    }
  }

  lemma DroppedLifts(w: World, from: CacheId, id: TenantId, faults: Faults, cache: CacheId)
    requires cache in w.poisoned && cache !in Dropped(w, from, id, faults).poisoned
    ensures Dropped(w, from, id, faults).Entries(cache) == map[]
  {
    SectionsClearEmpty(w.View(cache), id, "", 0, faults);
    hide TenantCache.Invalidated;
  }

  lemma SupersededAround(w: World, cache: CacheId, id: TenantId, faults: Faults, version: nat)
    ensures var dropped, w' := Dropped(w, cache, id, faults), Superseded(w, cache, id, faults, version);
      w'.generations == dropped.generations && w'.poisoned == dropped.poisoned && w'.caches == dropped.caches
  {
    hide Dropped, Max;
  }

  /** What a drop leaves of the caches. */
  lemma DropAround(w: World, call: Call, faults: Faults)
    ensures var w' := DropOf(w, call, faults).world;
      if call.GetAbsent? || call.WriteRejected? || call.Written? then
        var dropped := Dropped(w, call.cache, call.id, faults);
        w'.generations == dropped.generations && w'.poisoned == dropped.poisoned && w'.caches == dropped.caches
      else w' == w
  {
    if call.Written? {
      SupersededAround(w, call.cache, call.id, faults, call.version);
    }
    hide Dropped, Superseded, Max;
  }

  lemma DropLifts(w: World, call: Call, faults: Faults, cache: CacheId)
    requires cache in w.poisoned && cache !in DropOf(w, call, faults).world.poisoned
    ensures DropOf(w, call, faults).world.Entries(cache) == map[]
  {
    hide DropOf, Dropped, Superseded;
    DropAround(w, call, faults);
    if call.GetAbsent? || call.WriteRejected? || call.Written? {
      DroppedLifts(w, call.cache, call.id, faults, cache);
    }
  }

  /** Source calls do not touch the caches. */
  lemma WriteLeavesPoison(w: World, p: ProcId, call: Call)
    ensures WriteSourceOf(w, p, call).world.poisoned == w.poisoned
  {
    hide Applied, Mismatch, RejectedAs, CoordinatorOf, CommittedOf;
    if call.WriteStarted? {
      var outcome := Applied(call.id, call.change, w.Current(call.id));
      if outcome.Ok? {
        CommittedLeavesPoison(w, call.id, call.cache, call.change, outcome.value);
      }
    } else if call.SwapChecked? {
      var unlocked := w.Unlocked(CoordinatorOf(call.cache));
      var swap, outcome :=
        Swap(call.compared, call.expected, call.updated), Applied(call.id, Update(call.updated), w.Current(call.id));
      if outcome.Ok? {
        CommittedLeavesPoison(unlocked, call.id, call.cache, swap, outcome.value);
      }
    }
  }

  lemma CommittedLeavesPoison(w: World, id: TenantId, cache: CacheId, change: Change, content: Content)
    ensures CommittedOf(w, id, cache, change, content).world.poisoned == w.poisoned
  {
  }

  lemma ReadLeavesPoison(w: World, call: Call)
    ensures ReadSourceOf(w, call).world.poisoned == w.poisoned
  {
    hide Max;
  }

  lemma FailLeavesPoison(w: World, call: Call)
    ensures FailOf(w, call).world.poisoned == w.poisoned
  {
    hide Max, CoordinatorOf;
  }

  lemma CallLifts(w: World, p: ProcId, step: Step, cache: CacheId)
    requires p in w.calls && cache in w.poisoned && cache !in CallStep(w, p, step).world.poisoned
    ensures CallStep(w, p, step).world.Entries(cache) == map[]
  {
    hide LookUpOf, FillOf, DropOf, WriteSourceOf, ReadSourceOf, FailOf;
    match step
    case LookUp(_, faults) => LookUpLifts(w, w.calls[p], faults, cache);
    case Fill(_, faults) => FillLifts(w, w.calls[p], faults, cache);
    case Drop(_, faults) => DropLifts(w, w.calls[p], faults, cache);
    case WriteSource(_) => WriteLeavesPoison(w, p, w.calls[p]);
    case ReadSource(_) => ReadLeavesPoison(w, w.calls[p]);
    case Fail(_) => FailLeavesPoison(w, w.calls[p]);
    case _ =>
  }

  /** Poison is lifted from a cache only by emptying it. */
  lemma PoisonLiftedOnlyEmpty(w: World, step: Step, cache: CacheId)
    requires cache in w.poisoned && cache !in Next(w, step).poisoned
    ensures Next(w, step).Entries(cache) == map[]
  {
    hide CallStep;
    if !step.StartGet? && !step.StartWrite? && !step.Evict? {
      CallLifts(w, step.p, step, cache);
    }
  }
}
