/**
 Swaps over a source that cannot swap by itself. Each coordinator has its own legacy lock, and nothing compares the
 tenants a swap names, so that swaps are atomic exactly among wrappers of one coordinator whose swaps name one tenant.
 */
module CacheSwaps {
  import opened Prelude
  import opened TenantCache
  import opened CacheCoherence

  /** All writes of the run go through these caches' wrappers. */
  predicate WritesThrough(steps: seq<Step>, wrappers: set<CacheId>) {
    forall i :: 0 <= i < |steps| && steps[i].StartWrite? ==> steps[i].cache in wrappers
  }

  /** The next source call of `p` makes a swap succeed. */
  predicate Swaps(w: World, p: ProcId) {
    p in w.calls && !w.calls[p].Written? &&
    var next := WriteSourceOf(w, p, w.calls[p]).call; next.Written? && next.change.Swap?
  }

  /** What that swap replaces is the record its caller expected, of the tenant its caller compared. */
  predicate ReplacesExpected(w: World, p: ProcId)
    requires Swaps(w, p)
  {
    var next := WriteSourceOf(w, p, w.calls[p]).call;
    next.change.compared == next.id && w.Current(next.id) == Some(next.change.expected)
  }

  /** A swap that compares the tenant it replaces. */
  predicate NamesOne(id: TenantId, change: Change) { change.Swap? ==> change.compared == id }

  /** No swap of the run compares one tenant and replaces another. */
  predicate SwapsNameOne(steps: seq<Step>) {
    forall i :: 0 <= i < |steps| && steps[i].StartWrite? ==> NamesOne(steps[i].id, steps[i].change)
  }

  /** The runs that write through these wrappers, with swaps that name two tenants only where that is allowed. */
  predicate IsAllowed(steps: seq<Step>, wrappers: set<CacheId>, twoTenants: bool) {
    WritesThrough(steps, wrappers) && (twoTenants || SwapsNameOne(steps))
  }

  /** In no such run does a swap replace anything but the record it expected. */
  ghost predicate IsAtomic(w: World, wrappers: set<CacheId>, twoTenants: bool) {
    forall steps, p :: IsAllowed(steps, wrappers, twoTenants) && Swaps(Run(w, steps), p) ==>
      ReplacesExpected(Run(w, steps), p)
  }

  predicate ShareCoordinator(wrappers: set<CacheId>) {
    forall a, b :: a in wrappers && b in wrappers ==> CoordinatorOf(a) == CoordinatorOf(b)
  }

  /**
   Two pointers share a coordinator when their addresses in words of eight bytes differ by a multiple of 64, whatever
   they point to; any other cache has the coordinator of its wrapper alone.
   */
  lemma SharedExactly(a: CacheId, b: CacheId)
    ensures a.Pointer? && b.Pointer? ==>
      (CoordinatorOf(a) == CoordinatorOf(b) <==> exists k: int :: a.address / 8 == b.address / 8 + 64 * k)
    ensures a.Value? ==> (CoordinatorOf(a) == CoordinatorOf(b) <==> b.Value? && b.wrapper == a.wrapper)
  {
    if a.Pointer? && b.Pointer? {
      SameRemainder(a.address / 8, b.address / 8);
    }
  }

  lemma SameRemainder(x: nat, y: nat)
    ensures x % 64 == y % 64 <==> exists k: int :: x == y + 64 * k
  {
    if x % 64 == y % 64 {
      assert x == y + 64 * (x / 64 - y / 64);
    }
  }

  // ----- one coordinator, or a source that swaps -----

  predicate IsWriting(call: Call) { call.WriteStarted? || call.SwapChecked? }

  /**
   Writers share the coordinator, and a swap between its two source calls holds the lock over the record it compared.
   */
  ghost predicate Guards(w: World, coord: CoordinatorId, p: ProcId, call: Call) {
    (IsWriting(call) ==> CoordinatorOf(call.cache) == coord) &&
    (call.SwapChecked? ==>
      coord in w.legacyLocks && w.legacyLocks[coord] == p && w.Current(call.compared) == Some(call.expected))
  }

  ghost predicate Guarded(w: World, coord: CoordinatorId) {
    !w.atomicSwap && forall p :: p in w.calls ==> Guards(w, coord, p, w.calls[p])
  }

  /** A source that swaps by itself leaves no call between two source calls. */
  ghost predicate SwapsAlone(w: World) { w.atomicSwap && forall p :: p in w.calls ==> !w.calls[p].SwapChecked? }

  lemma LookUpLeaves(w: World, call: Call, faults: Faults)
    ensures var o := LookUpOf(w, call, faults); SameSource(w, o.world) && (o.call == call || !IsWriting(o.call))
  {
    hide LookedUp, CoordinatorOf;
  }

  lemma ReadLeaves(w: World, call: Call)
    ensures var o := ReadSourceOf(w, call); SameSource(w, o.world) && (o.call == call || !IsWriting(o.call))
  {
  }

  lemma FillLeaves(w: World, call: Call, faults: Faults)
    ensures var o := FillOf(w, call, faults); SameSource(w, o.world) && (o.call == call || !IsWriting(o.call))
  {
    hide FilledBy, CoordinatorOf, Max;
  }

  lemma DropLeaves(w: World, call: Call, faults: Faults)
    ensures var o := DropOf(w, call, faults); SameSource(w, o.world) && (o.call == call || !IsWriting(o.call))
  {
    hide Dropped, Superseded, CoordinatorOf, Max;
  }

  /** Only WriteSource and Fail touch the source or the locks. */
  lemma OthersLeaveSource(w: World, p: ProcId, step: Step)
    requires p in w.calls && !step.WriteSource? && !step.Fail?
    ensures var o := CallStep(w, p, step); SameSource(w, o.world) && (o.call == w.calls[p] || !IsWriting(o.call))
  {
    hide LookUpOf, ReadSourceOf, FillOf, DropOf, IsWriting;
    match step
    case LookUp(_, faults) => LookUpLeaves(w, w.calls[p], faults);
    case ReadSource(_) => ReadLeaves(w, w.calls[p]);
    case Fill(_, faults) => FillLeaves(w, w.calls[p], faults);
    case Drop(_, faults) => DropLeaves(w, w.calls[p], faults);
    case _ =>
  }

  lemma SameSourceGuards(w: World, w': World, coord: CoordinatorId, p: ProcId, call: Call)
    requires Guarded(w, coord) && SameSource(w, w') && w'.calls == w.calls[p := call]
    requires Guards(w, coord, p, call)
    ensures Guarded(w', coord)
  {
    hide CoordinatorOf;
    assert forall id :: w'.Current(id) == w.Current(id);
    forall q | q in w'.calls
      ensures Guards(w', coord, q, w'.calls[q])
    {
      assert q != p ==> Guards(w, coord, q, w.calls[q]);
    }
  }

  /** A writer that gets past the lock is the only one: the others may be anywhere but between their source calls. */
  lemma OnlyWriter(w: World, coord: CoordinatorId, p: ProcId, q: ProcId)
    requires Guarded(w, coord) && p in w.calls && q in w.calls && p != q
    requires w.calls[p].SwapChecked? || coord !in w.legacyLocks
    ensures !w.calls[q].SwapChecked?
  {
    assert Guards(w, coord, p, w.calls[p]) && Guards(w, coord, q, w.calls[q]);
  }

  /** Its step leaves the others guarded, whatever it does to the source and the locks. */
  lemma OnlyWriterGuards(w: World, w': World, coord: CoordinatorId, p: ProcId, call: Call)
    requires Guarded(w, coord) && p in w.calls && (w.calls[p].SwapChecked? || coord !in w.legacyLocks)
    requires w'.atomicSwap == w.atomicSwap && w'.calls == w.calls[p := call] && Guards(w', coord, p, call)
    ensures Guarded(w', coord)
  {
    hide CoordinatorOf;
    forall q | q in w'.calls
      ensures Guards(w', coord, q, w'.calls[q])
    {
      if q != p {
        OnlyWriter(w, coord, p, q);
        assert Guards(w, coord, q, w.calls[q]);
      }
    }
  }

  lemma WriteGuards(w: World, coord: CoordinatorId, p: ProcId)
    requires Guarded(w, coord) && p in w.calls
    ensures var o := WriteSourceOf(w, p, w.calls[p]); Guarded(o.world.Moved(p, o.call), coord)
  {
    var call := w.calls[p];
    var o := WriteSourceOf(w, p, call);
    var w' := o.world.Moved(p, o.call);
    assert !w.atomicSwap && Guards(w, coord, p, call);
    WriteMoves(w, coord, p);
    if call.SwapChecked? || (call.WriteStarted? && coord !in w.legacyLocks) {
      GuardsMoved(o.world, p, o.call, coord);
      hide WriteSourceOf, CoordinatorOf, Guarded, Guards;
      OnlyWriterGuards(w, w', coord, p, o.call);
    } else {
      hide WriteSourceOf, CoordinatorOf, Guarded, Guards;
      SameSourceGuards(w, w', coord, p, call);
    }
  }

  lemma GuardsMoved(w: World, p: ProcId, call: Call, coord: CoordinatorId)
    requires Guards(w, coord, p, call)
    ensures Guards(w.Moved(p, call), coord, p, call)
  {
  }

  lemma WriteMoves(w: World, coord: CoordinatorId, p: ProcId)
    requires !w.atomicSwap && p in w.calls && Guards(w, coord, p, w.calls[p])
    ensures var o := WriteSourceOf(w, p, w.calls[p]);
      o.world.atomicSwap == w.atomicSwap && Guards(o.world, coord, p, o.call) &&
      (!w.calls[p].SwapChecked? && !(w.calls[p].WriteStarted? && coord !in w.legacyLocks) ==>
        o == Outcome(w, w.calls[p]))
  {
    hide CoordinatorOf;
  }

  lemma FailGuards(w: World, coord: CoordinatorId, p: ProcId)
    requires Guarded(w, coord) && p in w.calls
    ensures var o := FailOf(w, w.calls[p]); Guarded(o.world.Moved(p, o.call), coord)
  {
    hide CoordinatorOf;
    var call, o := w.calls[p], FailOf(w, w.calls[p]);
    var w' := o.world.Moved(p, o.call);
    assert Guards(w, coord, p, call);
    if call.SwapChecked? {
      OnlyWriterGuards(w, w', coord, p, o.call);
    } else {
      SameSourceGuards(w, w', coord, p, o.call);
    }
  }

  lemma NextGuards(w: World, step: Step, coord: CoordinatorId)
    requires Guarded(w, coord) && (step.StartWrite? ==> CoordinatorOf(step.cache) == coord)
    ensures Guarded(Next(w, step), coord)
  {
    hide CallStep, CoordinatorOf;
    if step.StartGet? || step.StartWrite? {
      if step.p !in w.calls {
        SameSourceGuards(w, Next(w, step), coord, step.p, Next(w, step).calls[step.p]);
      }
    } else if step.Evict? {
      EvictGuards(w, step, coord);
    } else if step.p in w.calls {
      CallGuards(w, step, coord);
    }
  }

  lemma EvictGuards(w: World, step: Step, coord: CoordinatorId)
    requires Guarded(w, coord) && step.Evict?
    ensures Guarded(Next(w, step), coord)
  {
    hide CoordinatorOf;
    var w' := Next(w, step);
    assert forall id :: w'.Current(id) == w.Current(id);
    assert forall p :: p in w.calls ==> Guards(w, coord, p, w.calls[p]);
  }

  lemma CallGuards(w: World, step: Step, coord: CoordinatorId)
    requires Guarded(w, coord) && !step.StartGet? && !step.StartWrite? && !step.Evict? && step.p in w.calls
    ensures var o := CallStep(w, step.p, step); Guarded(o.world.Moved(step.p, o.call), coord)
  {
    var o := CallStep(w, step.p, step);
    if step.WriteSource? {
      WriteGuards(w, coord, step.p);
    } else if step.Fail? {
      FailGuards(w, coord, step.p);
    } else {
      OthersLeaveSource(w, step.p, step);
      assert Guards(w, coord, step.p, w.calls[step.p]);
      hide CallStep, CoordinatorOf;
      SameSourceGuards(w, o.world.Moved(step.p, o.call), coord, step.p, o.call);
    }
  }

  lemma {:induction false} RunGuards(w: World, steps: seq<Step>, wrappers: set<CacheId>, coord: CoordinatorId)
    requires Guarded(w, coord) && WritesThrough(steps, wrappers) && forall c :: c in wrappers ==>
      CoordinatorOf(c) == coord
    ensures Guarded(Run(w, steps), coord)
    decreases |steps|
  {
    hide Guarded, Next, CoordinatorOf;
    if steps != [] {
      assert steps[0].StartWrite? ==> steps[0].cache in wrappers;
      NextGuards(w, steps[0], coord);
      RunGuards(Next(w, steps[0]), steps[1..], wrappers, coord);
    }
  }

  lemma NextSwapsAlone(w: World, step: Step)
    requires SwapsAlone(w)
    ensures SwapsAlone(Next(w, step))
  {
    hide CallStep;
    if !step.StartGet? && !step.StartWrite? && !step.Evict? && step.p in w.calls {
      CallSwapsAlone(w, step);
    }
  }

  lemma CallSwapsAlone(w: World, step: Step)
    requires SwapsAlone(w) && !step.StartGet? && !step.StartWrite? && !step.Evict? && step.p in w.calls
    ensures var o := CallStep(w, step.p, step); o.world.atomicSwap && !o.call.SwapChecked?
  {
    if !step.WriteSource? && !step.Fail? {
      OthersLeaveSource(w, step.p, step);
      hide CallStep;
    }
  }

  lemma {:induction false} RunSwapsAlone(w: World, steps: seq<Step>)
    requires SwapsAlone(w)
    ensures SwapsAlone(Run(w, steps))
    decreases |steps|
  {
    hide SwapsAlone, Next;
    if steps != [] {
      NextSwapsAlone(w, steps[0]);
      RunSwapsAlone(Next(w, steps[0]), steps[1..]);
    }
  }

  // ----- swaps that name one tenant -----

  predicate CallNamesOne(call: Call) {
    (call.WriteStarted? ==> NamesOne(call.id, call.change)) && (call.SwapChecked? ==> call.compared == call.id)
  }

  predicate CallsNameOne(w: World) { forall p :: p in w.calls ==> CallNamesOne(w.calls[p]) }

  lemma NextNamesOne(w: World, step: Step)
    requires CallsNameOne(w) && (step.StartWrite? ==> NamesOne(step.id, step.change))
    ensures CallsNameOne(Next(w, step))
  {
    hide CallStep;
    if !step.StartGet? && !step.StartWrite? && !step.Evict? && step.p in w.calls {
      StepNamesOne(w, step);
    }
  }

  lemma StepNamesOne(w: World, step: Step)
    requires CallsNameOne(w) && !step.StartGet? && !step.StartWrite? && !step.Evict? && step.p in w.calls
    ensures CallNamesOne(CallStep(w, step.p, step).call)
  {
    hide CoordinatorOf, Applied, Mismatch;
    assert CallNamesOne(w.calls[step.p]);
    if !step.WriteSource? && !step.Fail? {
      OthersLeaveSource(w, step.p, step);
      hide CallStep;
    }
  }

  lemma {:induction false} RunNamesOne(w: World, steps: seq<Step>)
    requires CallsNameOne(w) && SwapsNameOne(steps)
    ensures CallsNameOne(Run(w, steps))
    decreases |steps|
  {
    hide CallsNameOne, Next, NamesOne;
    if steps != [] {
      NextNamesOne(w, steps[0]);
      RunNamesOne(Next(w, steps[0]), steps[1..]);
    }
  }

  // ----- two coordinators -----

  /**
   The run that loses an update: a swap through one coordinator has checked its record, a write through another
   replaces the record, and the swap then overwrites that write and reports success.
   */
  function LostUpdate(id: TenantId, a: CacheId, b: CacheId, expected: Record, updated: Record,
          between: Record): seq<Step>
  {
    [StartWrite(0, id, a, Swap(id, expected, updated)), WriteSource(0), StartWrite(1, id, b, Update(between)),
      WriteSource(1)]
  }

  lemma StripesLoseUpdates(w: World, id: TenantId, a: CacheId, b: CacheId, expected: Record, updated: Record,
          between: Record)
    requires !w.atomicSwap && CoordinatorOf(a) != CoordinatorOf(b) && w.legacyLocks == map[] && 0 !in w.calls &&
      1 !in w.calls
    requires w.Current(id) == Some(expected) && between != expected
    ensures var w' := Run(w, LostUpdate(id, a, b, expected, updated, between));
      w'.Current(id) == Some(between) && Swaps(w', 0) && !ReplacesExpected(w', 0) &&
      Next(w', WriteSource(0)).Current(id) == Some(updated)
  {
    hide Next, Run, CoordinatorOf, Swaps, ReplacesExpected;
    var steps := LostUpdate(id, a, b, expected, updated, between);
    var w1 := w.Moved(0, WriteStarted(id, a, Swap(id, expected, updated)));
    var w2 := w1.Locked(CoordinatorOf(a), 0).Moved(0, SwapChecked(id, a, id, expected, updated));
    var w3 := w2.Moved(1, WriteStarted(id, b, Update(between)));
    CheckedNow(w1, id, a, id, expected, updated);
    CommittedNow(w3, id, b, between);
    var w4 := Next(w3, WriteSource(1));
    StartedNow(w, 0, id, a, Swap(id, expected, updated));
    StartedNow(w2, 1, id, b, Update(between));
    assert w4.calls[0] == SwapChecked(id, a, id, expected, updated);
    RunFour(w, steps);
    OverwritesBlindly(w4, id, a, id, expected, updated);
  }

  lemma RunFirst(w: World, steps: seq<Step>)
    requires steps != []
    ensures Run(w, steps) == Run(Next(w, steps[0]), steps[1..])
  {
  }

  lemma RunFour(w: World, steps: seq<Step>)
    requires |steps| == 4
    ensures Run(w, steps) == Next(Next(Next(Next(w, steps[0]), steps[1]), steps[2]), steps[3])
  {
    var w1 := Next(w, steps[0]);
    var w2 := Next(w1, steps[1]);
    var w3 := Next(w2, steps[2]);
    hide Next;
    RunFirst(w, steps);
    RunFirst(w1, steps[1..]);
    RunFirst(w2, steps[1..][1..]);
    RunFirst(w3, steps[1..][1..][1..]);
  }

  lemma StartedNow(w: World, p: ProcId, id: TenantId, cache: CacheId, change: Change)
    requires p !in w.calls
    ensures Next(w, StartWrite(p, id, cache, change)) == w.Moved(p, WriteStarted(id, cache, change))
  {
  }

  lemma CheckedNow(w: World, id: TenantId, cache: CacheId, compared: TenantId, expected: Record, updated: Record)
    requires 0 in w.calls && w.calls[0] == WriteStarted(id, cache, Swap(compared, expected, updated)) && !w.atomicSwap
    requires CoordinatorOf(cache) !in w.legacyLocks && w.Current(compared) == Some(expected)
    ensures Next(w, WriteSource(0)) ==
      w.Locked(CoordinatorOf(cache), 0).Moved(0, SwapChecked(id, cache, compared, expected, updated))
  {
  }

  lemma CommittedNow(w: World, id: TenantId, cache: CacheId, record: Record)
    requires 1 in w.calls && w.calls[1] == WriteStarted(id, cache, Update(record)) && !w.atomicSwap
    requires CoordinatorOf(cache) !in w.legacyLocks && w.Current(id).Some?
    ensures var w' := Next(w, WriteSource(1));
      w'.Current(id) == Some(record) && w'.calls.Keys == w.calls.Keys && forall p :: p in w.calls && p != 1 ==>
        w'.calls[p] == w.calls[p]
  {
  }

  lemma OverwritesBlindly(w: World, id: TenantId, cache: CacheId, compared: TenantId, expected: Record,
          updated: Record)
    requires 0 in w.calls && w.calls[0] == SwapChecked(id, cache, compared, expected, updated)
    requires w.Current(id).Some? && (compared != id || w.Current(id) != Some(expected))
    ensures Swaps(w, 0) && !ReplacesExpected(w, 0) && Next(w, WriteSource(0)).Current(id) == Some(updated)
  {
  }

  // ----- two tenants -----

  /** A legacy swap that compares one tenant and replaces another, up to its second source call. */
  function ComparesAnother(compared: TenantId, id: TenantId, cache: CacheId, expected: Record,
          updated: Record): seq<Step>
  {
    [StartWrite(0, id, cache, Swap(compared, expected, updated)), WriteSource(0)]
  }

  /** The second tenant's record is replaced, whatever it is, and the swap reports success: one wrapper is enough. */
  lemma TwoTenantsOverwrite(w: World, compared: TenantId, id: TenantId, cache: CacheId, expected: Record,
          updated: Record)
    requires !w.atomicSwap && CoordinatorOf(cache) !in w.legacyLocks && 0 !in w.calls
    requires compared != id && w.Current(compared) == Some(expected) && w.Current(id).Some?
    ensures var w' := Run(w, ComparesAnother(compared, id, cache, expected, updated));
      w'.Current(id) == w.Current(id) && Swaps(w', 0) && !ReplacesExpected(w', 0) &&
      Next(w', WriteSource(0)).Current(id) == Some(updated)
  {
    hide Next, Run, CoordinatorOf, Swaps, ReplacesExpected;
    var steps := ComparesAnother(compared, id, cache, expected, updated);
    var w1 := w.Moved(0, WriteStarted(id, cache, Swap(compared, expected, updated)));
    var w2 := w1.Locked(CoordinatorOf(cache), 0).Moved(0, SwapChecked(id, cache, compared, expected, updated));
    StartedNow(w, 0, id, cache, Swap(compared, expected, updated));
    CheckedNow(w1, id, cache, compared, expected, updated);
    RunTwo(w, steps);
    OverwritesBlindly(w2, id, cache, compared, expected, updated);
  }

  lemma RunTwo(w: World, steps: seq<Step>)
    requires |steps| == 2
    ensures Run(w, steps) == Next(Next(w, steps[0]), steps[1])
  {
    hide Next;
    RunFirst(w, steps);
    RunFirst(Next(w, steps[0]), steps[1..]);
  }

  /** Where the source swaps by itself, such a swap is refused and changes nothing. */
  lemma TwoTenantsRefused(w: World, p: ProcId, id: TenantId, cache: CacheId, change: Change)
    requires w.atomicSwap && p in w.calls && w.calls[p] == WriteStarted(id, cache, change) && !NamesOne(id, change)
    ensures Next(w, WriteSource(p)) == w.Moved(p, Failed)
  {
  }

  // ----- the condition -----

  /**
   A swap that succeeds appends its record to what the source has held. Where the source swaps by itself or the wrappers
   share a coordinator, the tenant it compared still has the expected record then. That is the record it replaces
   where its tenants are one.
   */
  lemma SwapIsAtomic(w: World, wrappers: set<CacheId>, steps: seq<Step>, p: ProcId)
    requires Initial(w) && WritesThrough(steps, wrappers) && Swaps(Run(w, steps), p)
    ensures var w' := Run(w, steps);
      var o := WriteSourceOf(w', p, w'.calls[p]);
      o.world.History(o.call.id) == w'.History(o.call.id) + [Some(o.call.change.updated)] &&
      o.call.version == w'.Latest(o.call.id) + 1
    ensures w.atomicSwap || ShareCoordinator(wrappers) ==>
      var w' := Run(w, steps);
      var change := WriteSourceOf(w', p, w'.calls[p]).call.change;
      w'.Current(change.compared) == Some(change.expected)
    ensures w.atomicSwap || (ShareCoordinator(wrappers) && SwapsNameOne(steps)) ==> ReplacesExpected(Run(w, steps), p)
  {
    hide Swaps, ReplacesExpected, Run, CoordinatorOf, SwapsNameOne, WriteSourceOf, SwapsAlone, Guarded, CallsNameOne;
    var w' := Run(w, steps);
    StartsInOrder(w);
    SwapAppends(w', p);
    if w.atomicSwap {
      RunSwapsAlone(w, steps);
      SwapAlone(w', p);
    } else if ShareCoordinator(wrappers) {
      var coord := if c :| c in wrappers then CoordinatorOf(c) else Own(0);
      RunGuards(w, steps, wrappers, coord);
      SwapGuarded(w', coord, p);
      if SwapsNameOne(steps) {
        RunNamesOne(w, steps);
        SwapNamesOne(w', p);
      }
    }
  }

  lemma StartsInOrder(w: World)
    requires Initial(w)
    ensures CallsNameOne(w) && if w.atomicSwap then SwapsAlone(w) else forall coord :: Guarded(w, coord)
  {
  }

  lemma CommittedAppends(w: World, id: TenantId, cache: CacheId, change: Change, content: Content)
    ensures var o := CommittedOf(w, id, cache, change, content);
      o.world.History(id) == w.History(id) + [content] && o.call == Written(id, cache, change, w.Latest(id) + 1)
  {
  }

  lemma SwapAppends(w: World, p: ProcId)
    requires Swaps(w, p)
    ensures var o := WriteSourceOf(w, p, w.calls[p]);
      o.call.Written? && o.call.change.Swap? && o.call.version == w.Latest(o.call.id) + 1 &&
      o.world.History(o.call.id) == w.History(o.call.id) + [Some(o.call.change.updated)]
    ensures var next := WriteSourceOf(w, p, w.calls[p]).call;
      ReplacesExpected(w, p) <==> next.change.compared == next.id && w.Current(next.id) == Some(next.change.expected)
  {
    var call := w.calls[p];
    if call.WriteStarted? {
      CommittedAppends(w, call.id, call.cache, call.change, Some(call.change.updated));
    } else {
      CommittedAppends(w.Unlocked(CoordinatorOf(call.cache)), call.id, call.cache,
        Swap(call.compared, call.expected, call.updated), Some(call.updated));
    }
    hide CoordinatorOf, CommittedOf, Mismatch;
  }

  lemma SwapAlone(w: World, p: ProcId)
    requires Swaps(w, p) && SwapsAlone(w)
    ensures ReplacesExpected(w, p)
  {
    hide CoordinatorOf;
  }

  lemma SwapGuarded(w: World, coord: CoordinatorId, p: ProcId)
    requires Swaps(w, p) && Guarded(w, coord)
    ensures var change := WriteSourceOf(w, p, w.calls[p]).call.change;
      w.Current(change.compared) == Some(change.expected)
  {
    hide CoordinatorOf;
    assert Guards(w, coord, p, w.calls[p]);
  }

  lemma SwapNamesOne(w: World, p: ProcId)
    requires Swaps(w, p) && CallsNameOne(w)
    ensures var next := WriteSourceOf(w, p, w.calls[p]).call; next.change.compared == next.id
  {
    hide CoordinatorOf, Mismatch;
    assert CallNamesOne(w.calls[p]);
  }

  /**
   Swaps through these wrappers are atomic if and only if the source swaps by itself, or the wrappers share one
   coordinator and no swap names two tenants, or there is no wrapper to write through.
   */
  lemma SwapsAtomicExactly(w: World, wrappers: set<CacheId>, twoTenants: bool)
    requires Initial(w)
    ensures IsAtomic(w, wrappers, twoTenants) <==>
      w.atomicSwap || wrappers == {} || (ShareCoordinator(wrappers) && !twoTenants)
  {
    if w.atomicSwap || (ShareCoordinator(wrappers) && !twoTenants) {
      forall steps, p | IsAllowed(steps, wrappers, twoTenants) && Swaps(Run(w, steps), p)
        ensures ReplacesExpected(Run(w, steps), p)
      {
        SwapIsAtomic(w, wrappers, steps, p);
      }
    } else if wrappers == {} {
      NobodyWrites(w, twoTenants);
    } else if twoTenants {
      var cache :| cache in wrappers;
      TwoTenantsAreNotAtomic(w, wrappers, cache);
    } else {
      var a, b :| a in wrappers && b in wrappers && CoordinatorOf(a) != CoordinatorOf(b);
      ApartIsNotAtomic(w, wrappers, a, b, twoTenants);
    }
  }

  lemma NobodyWrites(w: World, twoTenants: bool)
    requires Initial(w)
    ensures IsAtomic(w, {}, twoTenants)
  {
    forall steps, p | IsAllowed(steps, {}, twoTenants) && Swaps(Run(w, steps), p)
      ensures ReplacesExpected(Run(w, steps), p)
    {
      assert SwapsNameOne(steps);
      SwapIsAtomic(w, {}, steps, p);
    }
  }

  // ----- tenants to swap -----

  const ONE: TenantId := "one"

  const OTHER: TenantId := "other"

  /** Makes sure that the source has a record of the tenant. */
  function Provided(w: World, id: TenantId, p: ProcId, cache: CacheId): (steps: seq<Step>) {
    if w.Current(id).Some? then [] else [StartWrite(p, id, cache, Create(id)), WriteSource(p)]
  }

  /** The record is there; other tenants, the locks and the other calls are as they were. */
  ghost predicate Provides(w: World, w': World, id: TenantId, p: ProcId) {
    w'.Current(id).Some? && (forall other :: other != id ==> w'.Current(other) == w.Current(other)) &&
    w'.atomicSwap == w.atomicSwap && w'.legacyLocks == w.legacyLocks && w'.calls.Keys <= w.calls.Keys + {p}
  }

  lemma ProvidedHas(w: World, id: TenantId, p: ProcId, cache: CacheId)
    requires !w.atomicSwap && CoordinatorOf(cache) !in w.legacyLocks && p !in w.calls
    ensures Provides(w, Run(w, Provided(w, id, p, cache)), id, p)
  {
    hide CoordinatorOf, Next, Run;
    var steps := Provided(w, id, p, cache);
    if w.Current(id).Some? {
      RunNothing(w);
    } else {
      var w1 := w.Moved(p, WriteStarted(id, cache, Create(id)));
      RunTwo(w, steps);
      StartedNow(w, p, id, cache, Create(id));
      CreatedNow(w1, id, p, cache);
    }
  }

  lemma CreatedNow(w: World, id: TenantId, p: ProcId, cache: CacheId)
    requires p in w.calls && w.calls[p] == WriteStarted(id, cache, Create(id)) && !w.atomicSwap
    requires CoordinatorOf(cache) !in w.legacyLocks && w.Current(id).None?
    ensures Provides(w, Next(w, WriteSource(p)), id, p)
  {
    hide CoordinatorOf;
  }

  lemma ApartIsNotAtomic(w: World, wrappers: set<CacheId>, a: CacheId, b: CacheId, twoTenants: bool)
    requires Initial(w) && !w.atomicSwap && a in wrappers && b in wrappers && CoordinatorOf(a) != CoordinatorOf(b)
    ensures !IsAtomic(w, wrappers, twoTenants)
  {
    hide CoordinatorOf, Swaps, ReplacesExpected, Next, Run;
    var before := Provided(w, ONE, 2, a);
    var w1 := Run(w, before);
    ProvidedHas(w, ONE, 2, a);
    var expected := w1.Current(ONE).value;
    var steps := LostUpdate(ONE, a, b, expected, ONE, expected + "!");
    StripesLoseUpdates(w1, ONE, a, b, expected, ONE, expected + "!");
    RunOn(w, before, steps);
    assert IsAllowed(before + steps, wrappers, twoTenants);
  }

  lemma TwoTenantsAreNotAtomic(w: World, wrappers: set<CacheId>, cache: CacheId)
    requires Initial(w) && !w.atomicSwap && cache in wrappers
    ensures !IsAtomic(w, wrappers, true)
  {
    hide CoordinatorOf, Swaps, ReplacesExpected, Next, Run;
    var first := Provided(w, ONE, 2, cache);
    var w1 := Run(w, first);
    ProvidedHas(w, ONE, 2, cache);
    var second := Provided(w1, OTHER, 3, cache);
    var w2 := Run(w1, second);
    ProvidedHas(w1, OTHER, 3, cache);
    var expected := w2.Current(ONE).value;
    var steps := ComparesAnother(ONE, OTHER, cache, expected, OTHER);
    TwoTenantsOverwrite(w2, ONE, OTHER, cache, expected, OTHER);
    RunOn(w1, second, steps);
    RunOn(w, first, second + steps);
    assert IsAllowed(first + (second + steps), wrappers, true);
  }

  lemma RunNothing(w: World)
    ensures Run(w, []) == w
  {
  }

  lemma {:induction false} RunOn(w: World, a: seq<Step>, b: seq<Step>)
    ensures Run(w, a + b) == Run(Run(w, a), b)
    decreases |a|
  {
    hide Next;
    if a == [] {
      assert a + b == b;
    } else {
      assert (a + b)[1..] == a[1..] + b;
      RunOn(Next(w, a[0]), a[1..], b);
    }
  }
}
