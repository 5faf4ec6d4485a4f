/**
 What writes through the wrappers leave in the source and in the cache: each version of a tenant was left by one
 successful call, which says what it is, and an undisturbed cache serves it without asking the source again.
 */
module CacheWrites {
  import opened Prelude
  import opened TenantCache
  import opened CacheCoherence
  import opened CacheSwaps

  // ----- versions and their writes -----

  /** What a successful write leaves of its tenant. */
  function LeftBy(change: Change): Content {
    match change
    case Create(record) => Some(record)
    case Update(record) => Some(record)
    case Swap(_, _, updated) => Some(updated)
    case Delete => None
  }

  /** The call's source write has succeeded. */
  predicate IsDone(call: Call) { call.Written? || call.Refilling? || call.RefillRead? || call.WriteReturned? }

  /** The version is what the change leaves, put where the change may be made. */
  ghost predicate Tells(history: seq<Content>, change: Change, version: nat) {
    0 < version < |history| && history[version] == LeftBy(change) &&
    (history[version - 1].None? <==> change.Create?)
  }

  ghost predicate Told(w: World, call: Call) {
    IsDone(call) ==> Tells(w.History(call.id), call.change, call.version)
  }

  ghost predicate AllTold(w: World) { forall p :: p in w.calls ==> Told(w, w.calls[p]) }

  /** Some call left this version. */
  ghost predicate IsLeft(w: World, id: TenantId, version: nat) {
    exists p :: p in w.calls && IsDone(w.calls[p]) && w.calls[p].id == id && w.calls[p].version == version
  }

  /** Every version that `first` did not have was left by some call. */
  ghost predicate AllLeft(first: World, w: World) {
    forall id, version: nat :: first.Latest(id) < version <= w.Latest(id) ==> IsLeft(w, id, version)
  }

  /** The step of a call neither begins nor forgets a write. */
  predicate SameWrite(call: Call, next: Call) {
    (IsDone(call) <==> IsDone(next)) &&
    (IsDone(call) ==> next.id == call.id && next.change == call.change && next.version == call.version)
  }

  lemma LookUpSameWrite(w: World, call: Call, faults: Faults)
    ensures SameWrite(call, LookUpOf(w, call, faults).call)
  {
    hide LookedUp, CoordinatorOf;
  }

  lemma ReadSameWrite(w: World, call: Call)
    ensures SameWrite(call, ReadSourceOf(w, call).call)
  {
    hide Max;
  }

  lemma FillSameWrite(w: World, call: Call, faults: Faults)
    ensures SameWrite(call, FillOf(w, call, faults).call)
  {
    hide FilledBy, CoordinatorOf, Max;
  }

  lemma DropSameWrite(w: World, call: Call, faults: Faults)
    ensures SameWrite(call, DropOf(w, call, faults).call)
  {
    hide Dropped, Superseded, CoordinatorOf, Max;
  }

  lemma FailSameWrite(w: World, call: Call)
    ensures SameWrite(call, FailOf(w, call).call) && FailOf(w, call).world.history == w.history
  {
    hide CoordinatorOf, Max;
  }

  /** Only WriteSource changes the source. */
  lemma OthersWriteNothing(w: World, p: ProcId, step: Step)
    requires p in w.calls && !step.WriteSource?
    ensures var o := CallStep(w, p, step); o.world.history == w.history && SameWrite(w.calls[p], o.call)
  {
    hide LookUpOf, ReadSourceOf, FillOf, DropOf, FailOf, SameWrite, IsWriting;
    if !step.Fail? {
      OthersLeaveSource(w, p, step);
    }
    SameIsSame(w.calls[p]);
    match step
    case LookUp(_, faults) => LookUpSameWrite(w, w.calls[p], faults);
    case ReadSource(_) => ReadSameWrite(w, w.calls[p]);
    case Fill(_, faults) => FillSameWrite(w, w.calls[p], faults);
    case Drop(_, faults) => DropSameWrite(w, w.calls[p], faults);
    case Fail(_) => FailSameWrite(w, w.calls[p]);
    case _ =>
  }

  lemma SameIsSame(call: Call)
    ensures SameWrite(call, call)
  {
  }

  /** A source call leaves the source alone, or appends what its change leaves as the call's own version. */
  ghost predicate WritesOrNot(w: World, o: Outcome, call: Call) {
    (o.world.history == w.history && SameWrite(call, o.call)) ||
    (o.call.Written? && !IsDone(call) && o.call.version == w.Latest(o.call.id) + 1 &&
     o.world.history == w.history[o.call.id := w.History(o.call.id) + [LeftBy(o.call.change)]] &&
     (w.Current(o.call.id).None? <==> o.call.change.Create?))
  }

  lemma SourceWrites(w: World, p: ProcId, call: Call)
    ensures WritesOrNot(w, WriteSourceOf(w, p, call), call)
  {
    if call.WriteStarted? {
      FirstCallWrites(w, p, call);
    } else if call.SwapChecked? {
      SecondCallWrites(w, p, call);
    } else {
      hide CoordinatorOf;
    }
  }

  lemma FirstCallWrites(w: World, p: ProcId, call: Call)
    requires call.WriteStarted?
    ensures WritesOrNot(w, WriteSourceOf(w, p, call), call)
  {
    if call.change.Swap? {
      ComparesOnly(w, p, call);
    }
    hide CoordinatorOf, ComparedOf;
  }

  lemma SecondCallWrites(w: World, p: ProcId, call: Call)
    requires call.SwapChecked?
    ensures WritesOrNot(w, WriteSourceOf(w, p, call), call)
  {
    hide CoordinatorOf;
  }

  lemma ComparesOnly(w: World, p: ProcId, call: Call)
    requires call.WriteStarted? && call.change.Swap?
    ensures var o := ComparedOf(w, p, call.id, call.cache, call.change);
      o.world.history == w.history && !IsDone(o.call)
  {
    hide CoordinatorOf, Mismatch;
  }

  // ----- over a run -----

  lemma AppendKeepsTold(w: World, w': World, call: Call)
    requires Told(w, call) && (IsDone(call) ==> w.History(call.id) <= w'.History(call.id))
    ensures Told(w', call)
  {
  }

  lemma Appended(w: World, w': World, id: TenantId, content: Content)
    requires w'.history == w.history[id := w.History(id) + [content]]
    ensures w'.History(id) == w.History(id) + [content] && w'.Latest(id) == w.Latest(id) + 1
    ensures forall other :: other != id ==> w'.History(other) == w.History(other)
    ensures forall other :: w.History(other) <= w'.History(other)
  {
  }

  lemma MovedTells(first: World, w: World, p: ProcId, o: Outcome)
    requires AllTold(w) && AllLeft(first, w) && p in w.calls && o.world.calls == w.calls
    requires WritesOrNot(w, o, w.calls[p])
    ensures var w' := o.world.Moved(p, o.call);
      AllTold(w') && AllLeft(first, w') && forall id :: w.History(id) <= w'.History(id)
  {
    var w' := o.world.Moved(p, o.call);
    if o.world.history == w.history && SameWrite(w.calls[p], o.call) {
      QuietTells(first, w, p, o);
    } else {
      WrittenTells(first, w, p, o);
    }
  }

  lemma QuietTells(first: World, w: World, p: ProcId, o: Outcome)
    requires AllTold(w) && AllLeft(first, w) && p in w.calls && o.world.calls == w.calls
    requires o.world.history == w.history && SameWrite(w.calls[p], o.call)
    ensures var w' := o.world.Moved(p, o.call);
      AllTold(w') && AllLeft(first, w') && forall id :: w.History(id) <= w'.History(id)
  {
    var w' := o.world.Moved(p, o.call);
    hide Tells;
    assert forall id :: w'.History(id) == w.History(id);
    assert Told(w, w.calls[p]);
    forall id, version: nat | first.Latest(id) < version <= w'.Latest(id)
      ensures IsLeft(w', id, version)
    {
      assert IsLeft(w, id, version);
      var q :| q in w.calls && IsDone(w.calls[q]) && w.calls[q].id == id && w.calls[q].version == version;
      assert q in w'.calls && IsDone(w'.calls[q]) && w'.calls[q].id == id && w'.calls[q].version == version;
    }
  }

  lemma WrittenTells(first: World, w: World, p: ProcId, o: Outcome)
    requires AllTold(w) && AllLeft(first, w) && p in w.calls && o.world.calls == w.calls
    requires o.call.Written? && !IsDone(w.calls[p]) && o.call.version == w.Latest(o.call.id) + 1
    requires o.world.history == w.history[o.call.id := w.History(o.call.id) + [LeftBy(o.call.change)]]
    requires w.Current(o.call.id).None? <==> o.call.change.Create?
    ensures var w' := o.world.Moved(p, o.call);
      AllTold(w') && AllLeft(first, w') && forall id :: w.History(id) <= w'.History(id)
  {
    var w' := o.world.Moved(p, o.call);
    Appended(w, w', o.call.id, LeftBy(o.call.change));
    forall q | q in w'.calls
      ensures Told(w', w'.calls[q])
    {
      if q != p {
        AppendKeepsTold(w, w', w.calls[q]);
      }
    }
    forall id, version: nat | first.Latest(id) < version <= w'.Latest(id)
      ensures IsLeft(w', id, version)
    {
      if id == o.call.id && version == o.call.version {
        assert p in w'.calls && IsDone(w'.calls[p]);
      } else {
        assert IsLeft(w, id, version);
        var q :| q in w.calls && IsDone(w.calls[q]) && w.calls[q].id == id && w.calls[q].version == version;
        assert q in w'.calls && IsDone(w'.calls[q]) && w'.calls[q].id == id && w'.calls[q].version == version;
      }
    }
  }

  lemma StepTells(first: World, w: World, step: Step)
    requires AllTold(w) && AllLeft(first, w)
    ensures AllTold(Next(w, step)) && AllLeft(first, Next(w, step))
    ensures forall id :: w.History(id) <= Next(w, step).History(id)
  {
    hide CallStep, AllTold, AllLeft, WritesOrNot;
    match step
    case StartGet(p, id, cache) =>
      if p !in w.calls {
        StartTells(first, w, p, GetStarted(id, cache, w.Returned(cache, id)));
      }
    case StartWrite(p, id, cache, change) =>
      if p !in w.calls {
        StartTells(first, w, p, WriteStarted(id, cache, change));
      }
    case Evict(cache, id) => EvictTells(first, w, cache, id);
    case _ =>
      if step.p in w.calls {
        CallTells(w, step);
        MovedTells(first, w, step.p, CallStep(w, step.p, step));
      }
  }

  lemma CallTells(w: World, step: Step)
    requires !step.StartGet? && !step.StartWrite? && !step.Evict? && step.p in w.calls
    ensures WritesOrNot(w, CallStep(w, step.p, step), w.calls[step.p])
  {
    hide WriteSourceOf, SameWrite;
    if step.WriteSource? {
      SourceWrites(w, step.p, w.calls[step.p]);
    } else {
      OthersWriteNothing(w, step.p, step);
      hide CallStep;
    }
  }

  lemma StartTells(first: World, w: World, p: ProcId, call: Call)
    requires AllTold(w) && AllLeft(first, w) && p !in w.calls && !IsDone(call)
    ensures AllTold(w.Moved(p, call)) && AllLeft(first, w.Moved(p, call))
    ensures forall id :: w.History(id) <= w.Moved(p, call).History(id)
  {
    var w' := w.Moved(p, call);
    hide Tells;
    forall id, version: nat | first.Latest(id) < version <= w'.Latest(id)
      ensures IsLeft(w', id, version)
    {
      assert IsLeft(w, id, version);
      var q :| q in w.calls && IsDone(w.calls[q]) && w.calls[q].id == id && w.calls[q].version == version;
      assert q in w'.calls && w'.calls[q] == w.calls[q];
    }
  }

  lemma EvictTells(first: World, w: World, cache: CacheId, id: TenantId)
    requires AllTold(w) && AllLeft(first, w)
    ensures var w' := Next(w, Evict(cache, id));
      AllTold(w') && AllLeft(first, w') && forall t :: w.History(t) <= w'.History(t)
  {
    var w' := Next(w, Evict(cache, id));
    hide Tells;
    assert w'.history == w.history && w'.calls == w.calls;
    hide Next;
    assert forall t :: w'.History(t) == w.History(t);
    forall t, version: nat | first.Latest(t) < version <= w'.Latest(t)
      ensures IsLeft(w', t, version)
    {
      assert IsLeft(w, t, version);
    }
  }

  lemma {:induction false} RunTells(first: World, w: World, steps: seq<Step>)
    requires AllTold(w) && AllLeft(first, w)
    ensures AllTold(Run(w, steps)) && AllLeft(first, Run(w, steps))
    ensures forall id :: w.History(id) <= Run(w, steps).History(id)
    decreases |steps|
  {
    hide AllTold, AllLeft, Next;
    if steps != [] {
      StepTells(first, w, steps[0]);
      RunTells(first, Next(w, steps[0]), steps[1..]);
    }
  }

  lemma StartsTold(w: World)
    requires Initial(w)
    ensures AllTold(w) && AllLeft(w, w)
  {
  }

  /**
   In every run each call that has written, whether it has returned or not, left its version: the record it created, put
   or swapped in, or nothing where it deleted; and it was made on a tenant that was there, or not there for a Create.
   Every version since the start was left by such a call, so that calls that fail leave nothing.
   */
  lemma WritesAreKept(w: World, steps: seq<Step>, p: ProcId)
    requires Initial(w) && p in Run(w, steps).calls && IsDone(Run(w, steps).calls[p])
    ensures var w' := Run(w, steps);
      Tells(w'.History(w'.calls[p].id), w'.calls[p].change, w'.calls[p].version)
  {
    StartsTold(w);
    RunTells(w, w, steps);
    assert Told(Run(w, steps), Run(w, steps).calls[p]);
  }

  lemma VersionsAreWritten(w: World, steps: seq<Step>, id: TenantId, version: nat)
    requires Initial(w) && w.Latest(id) < version <= Run(w, steps).Latest(id)
    ensures IsLeft(Run(w, steps), id, version)
  {
    StartsTold(w);
    RunTells(w, w, steps);
  }

  /**
   A Get that starts after a write through its cache has returned, with no later write to the tenant by the time it
   ends, yields exactly what the write left.
   */
  lemma GetYieldsLastWrite(w: World, before: seq<Step>, after: seq<Step>, writer: ProcId, reader: ProcId, id: TenantId,
                           cache: CacheId, started: World, ended: World)
    requires Initial(w) && started == Run(w, before)
    requires writer in started.calls && started.calls[writer].WriteReturned?
    requires started.calls[writer].id == id && started.calls[writer].cache == cache
    requires reader !in started.calls && ended == Run(Next(started, StartGet(reader, id, cache)), after)
    requires reader in ended.calls && ended.calls[reader].GetReturned?
    requires ended.Latest(id) == started.calls[writer].version
    ensures ended.calls[reader].content == LeftBy(started.calls[writer].change)
  {
    StartsTold(w);
    RunTells(w, w, before);
    StepTells(w, started, StartGet(reader, id, cache));
    RunTells(w, Next(started, StartGet(reader, id, cache)), after);
    hide Run, Next;
    GetAfterWriteIsFresh(w, before, after, writer, reader, id, cache, started, ended);
    assert Told(started, started.calls[writer]);
    assert started.History(id) <= ended.History(id);
  }

  // ----- when a write succeeds -----

  /** The change may be made to what the source holds. */
  predicate IsPossible(id: TenantId, change: Change, current: Content) {
    match change
    case Create(_) => current == None
    case Update(_) => current != None
    case Swap(compared, expected, _) => compared == id && current == Some(expected)
    case Delete => current != None
  }

  /** A write in one source call succeeds exactly when it is possible; the lock only makes it wait. */
  lemma WriteAnswers(w: World, p: ProcId, call: Call)
    requires call.WriteStarted? && (w.atomicSwap || CoordinatorOf(call.cache) !in w.legacyLocks)
    requires w.atomicSwap || !call.change.Swap?
    ensures var next := WriteSourceOf(w, p, call).call;
      if IsPossible(call.id, call.change, w.Current(call.id)) then next.Written?
      else if call.change.Delete? || (call.change.Swap? && call.change.compared == call.id) then
        next == WriteRejected(call.id, call.cache)
      else next == Failed
  {
    hide CoordinatorOf;
  }

  /** A legacy swap goes on to its second call exactly when the compared record is the expected one. */
  lemma LegacySwapAnswers(w: World, p: ProcId, call: Call)
    requires call.WriteStarted? && call.change.Swap? && !w.atomicSwap && CoordinatorOf(call.cache) !in w.legacyLocks
    ensures var next := WriteSourceOf(w, p, call).call;
      if w.Current(call.change.compared) == Some(call.change.expected) then next.SwapChecked?
      else next == WriteRejected(call.change.compared, call.cache)
  {
    hide CoordinatorOf;
  }

  /** A second source call writes where there is a record; done or failed, it gives the lock back. */
  lemma SecondCallAnswers(w: World, p: ProcId, call: Call)
    requires call.SwapChecked?
    ensures var o, coord := WriteSourceOf(w, p, call), CoordinatorOf(call.cache);
      coord !in o.world.legacyLocks && coord !in FailOf(w, call).world.legacyLocks &&
      if w.Current(call.id).Some? then o.call.Written? else o.call == WriteRejected(call.compared, call.cache)
  {
    hide CoordinatorOf;
  }

  /** A source call that fails ends its call without an answer; one that only refreshes the cache does not. */
  lemma FailAnswers(w: World, call: Call)
    ensures var o := FailOf(w, call);
      o.world.history == w.history &&
      (call.GetMissed? || call.WriteStarted? || call.SwapChecked? ==> o.call == Failed) &&
      (call.Refilling? ==> o.call == WriteReturned(call.id, call.cache, call.change, call.version))
  {
    hide CoordinatorOf, Max;
  }

  /** An eviction takes one entry out of one cache. */
  lemma EvictionForgets(w: World, cache: CacheId, id: TenantId)
    ensures var w' := Next(w, Evict(cache, id));
      id !in w'.Entries(cache) && w'.Entries(cache) - {id} == w.Entries(cache) - {id} &&
      forall other :: other != cache ==> w'.Entries(other) == w.Entries(other)
  {
  }

  // ----- what a section leaves -----

  function Once(b: bool): nat { if b then 1 else 0 }

  /** What clearing the cache leaves. */
  ghost predicate IsCleared(before: Shared, after: Shared, clearing: Clearing) {
    forall t :: t in after.entries <==> t in before.entries && clearing.FailsKeeping? && t in clearing.kept
  }

  /** A lookup only lifts poison, counting that, and hits only what a usable cache held. */
  lemma LookUpLeaves(s: Shared, id: TenantId, faults: Faults)
    ensures var found := LookedUp(s, id, faults);
      found.generation == found.shared.generation == s.generation + Once(s.poisoned && !found.shared.poisoned) &&
      (if s.poisoned then IsCleared(s, found.shared, faults.onInvalidate) else found.shared == s) &&
      (s.poisoned ==> (found.shared.poisoned <==> faults.onInvalidate.FailsKeeping?)) &&
      (found.hit.Some? ==> !s.poisoned && id in s.entries && found.hit.value == s.entries[id])
  {
  }

  /** A fill touches one entry, if any; it poisons the cache, counting that, only when nothing else is safe. */
  lemma FillLeaves(s: Shared, id: TenantId, record: Record, generation: nat, faults: Faults)
    ensures var next := Filled(s, id, record, generation, faults);
      next.generation == s.generation + Once(!s.poisoned && next.poisoned) && next.entries - {id} == s.entries - {id} &&
      (s.poisoned || generation != s.generation ==> next == s) &&
      (!s.poisoned && generation == s.generation ==>
        (next.poisoned <==> faults.onSet != Works && faults.onDelete != Works) &&
        (!next.poisoned ==> if faults.onSet == Works then id in next.entries && next.entries[id] == record
                            else id !in next.entries))
  {
  }

  /** An invalidation always counts; it lifts poison by clearing everything, or poisons when it cannot delete. */
  lemma InvalidateLeaves(s: Shared, id: TenantId, faults: Faults)
    ensures var next := TenantCache.Invalidated(s, id, faults);
      next.generation == s.generation + 1 + Once(!s.poisoned && next.poisoned) &&
      (if s.poisoned then IsCleared(s, next, faults.onInvalidate) else next.entries - {id} == s.entries - {id}) &&
      (next.poisoned <==> if s.poisoned then faults.onInvalidate.FailsKeeping? else faults.onDelete != Works) &&
      (!next.poisoned ==> id !in next.entries)
  {
  }

  lemma DroppedEmpties(w: World, cache: CacheId, id: TenantId, faults: Faults)
    requires cache.Pointer?
    ensures var w', coord := Dropped(w, cache, id, faults), CoordinatorOf(cache);
      w.Generation(coord) < w'.Generation(coord) && (cache in w'.poisoned || id !in w'.Entries(cache))
  {
    InvalidateEntries(w.View(cache), id, faults);
    hide TenantCache.Invalidated, CoordinatorOf;
  }

  /** After a committed or refused write, or a read that found nothing, a usable cache has no entry of the tenant. */
  lemma DropEmpties(w: World, call: Call, faults: Faults)
    requires (call.GetAbsent? || call.WriteRejected? || call.Written?) && call.cache.Pointer?
    ensures var w', coord := DropOf(w, call, faults).world, CoordinatorOf(call.cache);
      w.Generation(coord) < w'.Generation(coord) && (call.cache in w'.poisoned || call.id !in w'.Entries(call.cache))
  {
    hide Dropped, CoordinatorOf, DropOf;
    DroppedEmpties(w, call.cache, call.id, faults);
    DropAround(w, call, faults);
  }

  // ----- the cache serves -----

  const NO_FAULTS: Faults := Faults(false, Works, Works, Clears)

  /** One undisturbed Get after another. */
  function TwoGets(p: ProcId, q: ProcId, id: TenantId, cache: CacheId): seq<Step> {
    [StartGet(p, id, cache), LookUp(p, NO_FAULTS), ReadSource(p), Fill(p, NO_FAULTS)] +
    [StartGet(q, id, cache), LookUp(q, NO_FAULTS)]
  }

  /** The source call of an undisturbed write that leaves a record, its refill and a Get. */
  function WriteAndGet(p: ProcId, q: ProcId, id: TenantId, cache: CacheId): seq<Step> {
    [Drop(p, NO_FAULTS), ReadSource(p), Fill(p, NO_FAULTS)] + [StartGet(q, id, cache), LookUp(q, NO_FAULTS)]
  }

  lemma RunOne(w: World, step: Step, rest: seq<Step>)
    ensures Run(w, [step] + rest) == Run(Next(w, step), rest)
  {
    assert ([step] + rest)[1..] == rest;
    hide Next;
  }

  /** The cache behind `cache` is usable and holds this record. */
  predicate Serves(w: World, id: TenantId, cache: CacheId, record: Record) {
    cache !in w.poisoned && id in w.Entries(cache) && w.Entries(cache)[id] == record
  }

  lemma ServedIsHit(w: World, q: ProcId, id: TenantId, cache: CacheId, record: Record)
    requires Serves(w, id, cache, record) && cache.Pointer? && q !in w.calls
    ensures var w' := Run(w, [StartGet(q, id, cache), LookUp(q, NO_FAULTS)]);
      q in w'.calls && w'.calls[q] == GetReturned(id, cache, w.Returned(cache, id), Some(record))
  {
    var start, look := StartGet(q, id, cache), LookUp(q, NO_FAULTS);
    RunOne(w, start, [look]);
    RunOne(Next(w, start), look, []);
    assert [start] + [look] == [start, look] && [look] + [] == [look];
    LooksUp(Next(w, start), q, id, cache, record);
    hide Next;
  }

  lemma LooksUp(w: World, q: ProcId, id: TenantId, cache: CacheId, record: Record)
    requires Serves(w, id, cache, record) && cache.Pointer?
    requires q in w.calls && w.calls[q].GetStarted? && w.calls[q].id == id && w.calls[q].cache == cache
    ensures var w' := Next(w, LookUp(q, NO_FAULTS));
      w'.calls[q] == GetReturned(id, cache, w.calls[q].since, Some(record))
  {
    hide CoordinatorOf;
  }

  /** The call has returned a record that its cache now serves. */
  ghost predicate HasReturned(w: World, p: ProcId, id: TenantId, cache: CacheId) {
    p in w.calls && w.calls[p].GetReturned? && w.calls[p].content.Some? &&
    Serves(w, id, cache, w.calls[p].content.value)
  }

  lemma LooksUpOnce(w: World, p: ProcId, id: TenantId, cache: CacheId)
    requires cache.Pointer?
    requires p in w.calls && w.calls[p].GetStarted? && w.calls[p].id == id && w.calls[p].cache == cache
    ensures var w' := Next(w, LookUp(p, NO_FAULTS));
      cache !in w'.poisoned && w'.history == w.history && w'.calls.Keys == w.calls.Keys &&
      (HasReturned(w', p, id, cache) ||
       w'.calls[p] == GetMissed(id, cache, w.calls[p].since, w'.Generation(CoordinatorOf(cache))))
  {
    hide CoordinatorOf;
  }

  lemma ReadsOnce(w: World, p: ProcId)
    requires p in w.calls && (w.calls[p].GetMissed? || w.calls[p].Refilling?) && w.Current(w.calls[p].id).Some?
    ensures var call, record := w.calls[p], w.Current(w.calls[p].id).value;
      Next(w, ReadSource(p)) ==
        w.Moved(p, if call.GetMissed? then GetRead(call.id, call.cache, call.since, call.generation, record)
                   else RefillRead(call.id, call.cache, call.change, call.version, call.generation, record))
  {
  }

  lemma FillsOnce(w: World, p: ProcId)
    requires p in w.calls && (w.calls[p].GetRead? || w.calls[p].RefillRead?) && w.calls[p].cache.Pointer?
    requires w.calls[p].cache !in w.poisoned && w.calls[p].generation == w.Generation(CoordinatorOf(w.calls[p].cache))
    ensures var call, w' := w.calls[p], Next(w, Fill(p, NO_FAULTS));
      Serves(w', call.id, call.cache, call.record) && w'.calls.Keys == w.calls.Keys &&
      w'.calls[p] == if call.GetRead? then GetReturned(call.id, call.cache, call.since, Some(call.record))
                     else WriteReturned(call.id, call.cache, call.change, call.version)
  {
    hide CoordinatorOf, Max;
  }

  lemma StaysReturned(w: World, p: ProcId, step: Step)
    requires p in w.calls && w.calls[p].GetReturned? && (step == ReadSource(p) || step == Fill(p, NO_FAULTS))
    ensures Next(w, step) == w
  {
    assert w.calls[p := w.calls[p]] == w.calls;
  }

  /** The first three steps of an undisturbed Get once it has started. */
  lemma GetFills(w: World, p: ProcId, id: TenantId, cache: CacheId)
    requires cache.Pointer?
    requires p in w.calls && w.calls[p].GetStarted? && w.calls[p].id == id && w.calls[p].cache == cache
    requires w.Current(id).Some?
    ensures var w' := Next(Next(Next(w, LookUp(p, NO_FAULTS)), ReadSource(p)), Fill(p, NO_FAULTS));
      HasReturned(w', p, id, cache) && w'.calls.Keys == w.calls.Keys
  {
    var w1 := Next(w, LookUp(p, NO_FAULTS));
    var w2 := Next(w1, ReadSource(p));
    LooksUpOnce(w, p, id, cache);
    hide Next, CoordinatorOf;
    if w1.calls[p].GetReturned? {
      StaysReturned(w1, p, ReadSource(p));
      StaysReturned(w1, p, Fill(p, NO_FAULTS));
    } else {
      ReadsOnce(w1, p);
      FillsOnce(w2, p);
    }
  }

  /** What an undisturbed Get does, but for starting. */
  function GetSteps(p: ProcId, id: TenantId, cache: CacheId): seq<Step> {
    [StartGet(p, id, cache), LookUp(p, NO_FAULTS), ReadSource(p), Fill(p, NO_FAULTS)]
  }

  lemma GetReturns(w: World, p: ProcId, id: TenantId, cache: CacheId)
    requires cache.Pointer? && p !in w.calls && w.Current(id).Some?
    ensures var w' := Run(w, GetSteps(p, id, cache));
      HasReturned(w', p, id, cache) && w'.calls.Keys == w.calls.Keys + {p}
  {
    var start := w.Moved(p, GetStarted(id, cache, w.Returned(cache, id)));
    GetFills(start, p, id, cache);
    assert Next(w, StartGet(p, id, cache)) == start;
    hide Next, CoordinatorOf, HasReturned;
    RunFour(w, GetSteps(p, id, cache));
  }

  lemma ThenServed(w: World, p: ProcId, q: ProcId, id: TenantId, cache: CacheId, record: Record)
    requires Serves(w, id, cache, record) && cache.Pointer? && p in w.calls && q !in w.calls
    ensures var w' := Run(w, [StartGet(q, id, cache), LookUp(q, NO_FAULTS)]);
      p in w'.calls && w'.calls[p] == w.calls[p] &&
      q in w'.calls && w'.calls[q].GetReturned? && w'.calls[q].content == Some(record)
  {
    hide Run, Serves;
    ServedIsHit(w, q, id, cache, record);
    OthersStay(w, [StartGet(q, id, cache), LookUp(q, NO_FAULTS)], p);
  }

  /** Two undisturbed Gets of a tenant that is there: the second finds in the cache what the first has returned. */
  lemma CacheServesGets(w: World, p: ProcId, q: ProcId, id: TenantId, cache: CacheId)
    requires cache.Pointer? && p !in w.calls && q !in w.calls && p != q && w.Current(id).Some?
    ensures var w' := Run(w, TwoGets(p, q, id, cache));
      p in w'.calls && q in w'.calls && w'.calls[p].GetReturned? && w'.calls[q].GetReturned? &&
      w'.calls[p].content == w'.calls[q].content != None
  {
    var w1 := Run(w, GetSteps(p, id, cache));
    var second := [StartGet(q, id, cache), LookUp(q, NO_FAULTS)];
    GetReturns(w, p, id, cache);
    RunOn(w, GetSteps(p, id, cache), second);
    hide Run, Serves;
    ThenServed(w1, p, q, id, cache, w1.calls[p].content.value);
    assert TwoGets(p, q, id, cache) == GetSteps(p, id, cache) + second;
  }

  lemma OthersStay(w: World, steps: seq<Step>, p: ProcId)
    requires |steps| == 2 && p in w.calls && (forall i :: 0 <= i < 2 ==> !steps[i].Evict? && steps[i].p != p)
    ensures p in Run(w, steps).calls && Run(w, steps).calls[p] == w.calls[p]
  {
    RunTwo(w, steps);
    OtherStays(w, steps[0], p);
    OtherStays(Next(w, steps[0]), steps[1], p);
    hide Next;
  }

  lemma OtherStays(w: World, step: Step, p: ProcId)
    requires p in w.calls && !step.Evict? && step.p != p
    ensures p in Next(w, step).calls && Next(w, step).calls[p] == w.calls[p]
  {
    hide CallStep;
  }

  lemma DropsAndReads(w: World, p: ProcId)
    requires p in w.calls && w.calls[p].Written? && w.calls[p].cache.Pointer? && !w.calls[p].change.Delete?
    requires w.Current(w.calls[p].id).Some?
    ensures var call, w' := w.calls[p], Next(Next(w, Drop(p, NO_FAULTS)), ReadSource(p));
      call.cache !in w'.poisoned && w'.calls.Keys == w.calls.Keys &&
      w'.calls[p] == RefillRead(call.id, call.cache, call.change, call.version,
                                w'.Generation(CoordinatorOf(call.cache)), w.Current(call.id).value)
  {
    DropsOnce(w, p);
    hide Next, CoordinatorOf;
    ReadsOnce(Next(w, Drop(p, NO_FAULTS)), p);
  }

  lemma WriteReturns(w: World, p: ProcId)
    requires p in w.calls && w.calls[p].Written? && w.calls[p].cache.Pointer? && !w.calls[p].change.Delete?
    requires w.Current(w.calls[p].id).Some?
    ensures var call, w' := w.calls[p], Run(w, [Drop(p, NO_FAULTS), ReadSource(p), Fill(p, NO_FAULTS)]);
      Serves(w', call.id, call.cache, w.Current(call.id).value) && w'.calls.Keys == w.calls.Keys &&
      w'.calls[p] == WriteReturned(call.id, call.cache, call.change, call.version)
  {
    hide Next, Run, CoordinatorOf, Serves;
    DropsAndReads(w, p);
    FillsOnce(Next(Next(w, Drop(p, NO_FAULTS)), ReadSource(p)), p);
    RunThree(w, [Drop(p, NO_FAULTS), ReadSource(p), Fill(p, NO_FAULTS)]);
  }

  /** After the source call of an undisturbed write that left a record, the write returns and a Get finds the record. */
  lemma CacheServesWrite(w: World, p: ProcId, q: ProcId)
    requires p in w.calls && q !in w.calls && w.calls[p].Written? && w.calls[p].cache.Pointer?
    requires !w.calls[p].change.Delete? && w.Current(w.calls[p].id).Some?
    ensures var call, w' := w.calls[p], Run(w, WriteAndGet(p, q, w.calls[p].id, w.calls[p].cache));
      p in w'.calls && w'.calls[p] == WriteReturned(call.id, call.cache, call.change, call.version) &&
      q in w'.calls && w'.calls[q].GetReturned? && w'.calls[q].content == w.Current(call.id)
  {
    var call := w.calls[p];
    var first := [Drop(p, NO_FAULTS), ReadSource(p), Fill(p, NO_FAULTS)];
    var second := [StartGet(q, call.id, call.cache), LookUp(q, NO_FAULTS)];
    WriteReturns(w, p);
    RunOn(w, first, second);
    hide Run, Serves;
    ThenServed(Run(w, first), p, q, call.id, call.cache, w.Current(call.id).value);
  }

  lemma DropsOnce(w: World, p: ProcId)
    requires p in w.calls && w.calls[p].Written? && w.calls[p].cache.Pointer? && !w.calls[p].change.Delete?
    ensures var call, w' := w.calls[p], Next(w, Drop(p, NO_FAULTS));
      call.cache !in w'.poisoned && w'.history == w.history && w'.calls.Keys == w.calls.Keys &&
      w'.calls[p] ==
        Refilling(call.id, call.cache, call.change, call.version, w'.Generation(CoordinatorOf(call.cache)))
  {
    hide CoordinatorOf, Max;
  }

  lemma RunThree(w: World, steps: seq<Step>)
    requires |steps| == 3
    ensures Run(w, steps) == Next(Next(Next(w, steps[0]), steps[1]), steps[2])
  {
    hide Next;
    RunFirst(w, steps);
    RunTwo(Next(w, steps[0]), steps[1..]);
  }
}
