/**
 Service calls of any number of instances interleave their reads with conditional store writes. Each call
 that succeeds acts as if it had run alone, and the workflow's books balance.
 */
module DeploymentService {
  import opened Prelude
  import opened DeploymentStore

  type CallId = int

  /** Where a call stands, with what it has read so far. */
  datatype Call =
    | Assigning(tenant: TenantId, unit: UnitId)
    | AssignReady(assignment: Assignment)
    | Preparing(tenant: TenantId, target: UnitId)
    | PrepareRead(tenant: TenantId, source: UnitId, target: UnitId)
    | PrepareReady(move: Move)
    | CuttingOver(tenant: TenantId)
    | CutoverMoveRead(move: Move)
    | CutoverRead(move: Move, expected: Assignment)
    | CutoverReady(move: Move, expected: Assignment)
    | Cancelling(tenant: TenantId)
    | CancelReady(move: Move)
    | Succeeded
    | Failed(error: Error)

  datatype Counts = Counts(prepares: nat, cutovers: nat, cancels: nat)

  datatype World = World(store: Placement, calls: map<CallId, Call>, counts: map<TenantId, Counts>) {
    function Count(tenant: TenantId): Counts { if tenant in counts then counts[tenant] else Counts(0, 0, 0) }
  }

  // ----- one step of a call -----

  /** `activeUnitFor`: the unit exists, is active and passes the host's policy. */
  function Admission(s: Placement, unit: UnitId, allowed: bool): Option<Error> {
    if UnitProblem(s, unit).Some? then UnitProblem(s, unit) else if !allowed then Some(PolicyDenied) else None
  }

  /** The next position of a call after a read. */
  function AfterRead(s: Placement, call: Call, allowed: bool): Call {
    if call.Assigning? then
      var refused := Admission(s, call.unit, allowed);
      if call.tenant == "" || call.unit == "" then Failed(InvalidAssignment)
      else if refused.Some? then Failed(refused.value)
      else AssignReady(Assignment(call.tenant, call.unit, 1))
    else if call.Preparing? then
      if call.tenant == "" || call.target == "" then Failed(InvalidMove)
      else if call.tenant !in s.assignments then Failed(AssignmentNotFound)
      else if s.assignments[call.tenant].unit == call.target then Failed(InvalidMove)
      else PrepareRead(call.tenant, s.assignments[call.tenant].unit, call.target)
    else if call.PrepareRead? then
      var refused := Admission(s, call.target, allowed);
      if refused.Some? then Failed(refused.value) else PrepareReady(Move(call.tenant, call.source, call.target))
    else if call.CuttingOver? then
      if call.tenant == "" then Failed(InvalidMove)
      else if call.tenant !in s.moves then Failed(MoveNotFound)
      else CutoverMoveRead(s.moves[call.tenant])
    else if call.CutoverMoveRead? then
      if call.move.tenant !in s.assignments then Failed(AssignmentNotFound)
      else
        var assignment := s.assignments[call.move.tenant];
        if assignment.unit != call.move.source then Failed(MoveConflict)
        else if assignment.version == MAX_UINT64 then Failed(AssignmentConflict)
        else CutoverRead(call.move, assignment)
    else if call.CutoverRead? then
      var refused := Admission(s, call.move.target, allowed);
      if refused.Some? then Failed(refused.value) else CutoverReady(call.move, call.expected)
    else if call.Cancelling? then
      if call.tenant == "" then Failed(InvalidMove)
      else if call.tenant !in s.moves then Failed(MoveNotFound)
      else CancelReady(s.moves[call.tenant])
    else call
  }

  /** The conditional write a call is ready to make. */
  function Prepared(call: Call): Option<Op> {
    if call.AssignReady? then Some(CreateAssignment(call.assignment))
    else if call.PrepareReady? then Some(CreateMove(call.move))
    else if call.CutoverReady? then
      Some(CutoverMove(call.expected, call.move, NextAssignment(call.move, call.expected)))
    else if call.CancelReady? then Some(DeleteMoveIfMatch(call.move))
    else None
  }

  function NextAssignment(move: Move, expected: Assignment): Assignment {
    Assignment(expected.tenant, move.target, expected.version + 1)
  }

  /** The books after a successful write. */
  function Counted(counts: Counts, op: Op): Counts {
    if op.CreateMove? then counts.(prepares := counts.prepares + 1)
    else if op.CutoverMove? then counts.(cutovers := counts.cutovers + 1)
    else if op.DeleteMoveIfMatch? then counts.(cancels := counts.cancels + 1)
    else counts
  }

  function Target(op: Op): TenantId {
    if op.CreateMove? || op.CutoverMove? || op.DeleteMoveIfMatch? then op.move.tenant
    else if op.CreateAssignment? then op.assignment.tenant
    else ""
  }

  datatype Step =
    | Start(c: CallId, call: Call)
    | ReadStore(c: CallId, allowed: bool)
    | WriteStore(c: CallId)
    | Administer(op: Op)

  predicate IsStart(call: Call) { call.Assigning? || call.Preparing? || call.CuttingOver? || call.Cancelling? }

  predicate IsUnitOp(op: Op) { op.CreateUnit? || op.UpdateUnit? || op.DisableUnit? || op.DeleteUnit? }

  function Next(w: World, step: Step): World {
    match step
    case Start(c, call) => if c in w.calls || !IsStart(call) then w else w.(calls := w.calls[c := call])
    case ReadStore(c, allowed) =>
      if c !in w.calls then w else w.(calls := w.calls[c := AfterRead(w.store, w.calls[c], allowed)])
    case WriteStore(c) =>
      if c in w.calls && Prepared(w.calls[c]).Some? then Written(w, c, Prepared(w.calls[c]).value) else w
    case Administer(op) => if IsUnitOp(op) then w.(store := Perform(w.store, op)) else w
  }

  function Written(w: World, c: CallId, op: Op): World {
    var problem := Problem(w.store, op);
    if problem.Some? then w.(calls := w.calls[c := Failed(problem.value)])
    else
      World(Effect(w.store, op), w.calls[c := Succeeded], w.counts[Target(op) := Counted(w.Count(Target(op)), op)])
  }

  function Run(w: World, steps: seq<Step>): World
    decreases |steps|
  {
    if steps == [] then w else Run(Next(w, steps[0]), steps[1..])
  }

  ghost predicate Initial(w: World) { w == World(Placement(map[], map[], map[]), map[], map[]) }

  // ----- the invariant -----

  /** Prepared moves are cut over, cancelled or pending; versions count cutovers; a move starts where the tenant is. */
  ghost predicate Balanced(s: Placement, tenant: TenantId, counts: Counts) {
    counts.prepares == counts.cutovers + counts.cancels + (if tenant in s.moves then 1 else 0) &&
    (tenant in s.assignments ==>
       s.assignments[tenant].tenant == tenant && s.assignments[tenant].version == 1 + counts.cutovers) &&
    (tenant !in s.assignments ==> tenant !in s.moves && counts.cutovers == 0) &&
    (tenant in s.moves ==> s.moves[tenant].tenant == tenant && s.moves[tenant].source == s.assignments[tenant].unit)
  }

  /** What a call carries from its reads into its write. */
  ghost predicate CallOk(call: Call) {
    (call.AssignReady? ==> call.assignment.version == 1) &&
    (call.CutoverRead? || call.CutoverReady? ==>
       call.expected.tenant == call.move.tenant && call.expected.unit == call.move.source &&
         call.expected.version < MAX_UINT64)
  }

  ghost predicate AllBalanced(w: World) { forall t :: Balanced(w.store, t, w.Count(t)) }

  ghost predicate AllValid(s: Placement) {
    (forall t :: t in s.assignments ==> ValidAssignment(s.assignments[t])) &&
    (forall t :: t in s.moves ==> ValidMove(s.moves[t]))
  }

  ghost predicate Inv(w: World) {
    Placed(w.store) && AllValid(w.store) && AllBalanced(w) && forall c :: c in w.calls ==> CallOk(w.calls[c])
  }

  // ----- the invariant is kept -----

  lemma ReadKeepsCall(w: World, call: Call, allowed: bool)
    requires Inv(w) && CallOk(call)
    ensures CallOk(AfterRead(w.store, call, allowed))
  {
    hide Admission, Placed, ValidMove;
    if call.CutoverMoveRead? && call.move.tenant in w.store.assignments {
      assert Balanced(w.store, call.move.tenant, w.Count(call.move.tenant));
    }
  }

  lemma OpKeepsBalance(s: Placement, op: Op, tenant: TenantId, counts: Counts)
    requires Problem(s, op).None? && Balanced(s, tenant, counts)
    requires IsUnitOp(op) || op.CreateMove? || op.CutoverMove? || op.DeleteMoveIfMatch? ||
             (op.CreateAssignment? && op.assignment.version == 1)
    ensures var counts' := if !IsUnitOp(op) && tenant == Target(op) then Counted(counts, op) else counts;
      Balanced(Effect(s, op), tenant, counts')
  {
    hide IsReferenced, ValidUnit;
  }

  lemma OpKeepsValid(s: Placement, op: Op)
    requires Problem(s, op).None? && AllValid(s)
    ensures AllValid(Effect(s, op))
  {
    hide IsReferenced, ValidUnit, ValidMove, ValidAssignment;
  }

  lemma SameBooks(w: World, w': World)
    requires AllBalanced(w) && w'.store == w.store && w'.counts == w.counts
    ensures AllBalanced(w')
  {
    hide Balanced;
    forall t
      ensures Balanced(w'.store, t, w'.Count(t))
    {
      assert Balanced(w.store, t, w.Count(t));
    }
  }

  lemma WrittenKeeps(w: World, c: CallId, op: Op)
    requires Inv(w) && c in w.calls && Prepared(w.calls[c]) == Some(op)
    ensures Inv(Written(w, c, op))
  {
    assert CallOk(w.calls[c]);
    PreparedOps(w.calls[c]);
    PerformKeepsPlaced(w.store, op);
    hide Placed, Problem, Effect, AllValid, Prepared;
    var w' := Written(w, c, op);
    if Problem(w.store, op).None? {
      OpKeepsValid(w.store, op);
      forall t
        ensures Balanced(w'.store, t, w'.Count(t))
      {
        assert Balanced(w.store, t, w.Count(t));
        OpKeepsBalance(w.store, op, t, w.Count(t));
        hide Balanced, Counted;
      }
    } else {
      SameBooks(w, w');
    }
  }

  lemma PreparedOps(call: Call)
    requires CallOk(call) && Prepared(call).Some?
    ensures var op := Prepared(call).value;
      op.CreateMove? || op.CutoverMove? || op.DeleteMoveIfMatch? || (op.CreateAssignment? && op.assignment.version == 1)
  {
  }

  lemma AdministerKeeps(w: World, op: Op)
    requires Inv(w) && IsUnitOp(op)
    ensures Inv(w.(store := Perform(w.store, op)))
  {
    PerformKeepsPlaced(w.store, op);
    hide Placed, Problem, Effect, AllValid;
    var w' := w.(store := Perform(w.store, op));
    if Problem(w.store, op).None? {
      OpKeepsValid(w.store, op);
      forall t
        ensures Balanced(w'.store, t, w'.Count(t))
      {
        assert Balanced(w.store, t, w.Count(t));
        OpKeepsBalance(w.store, op, t, w.Count(t));
        hide Balanced;
      }
    } else {
      SameBooks(w, w');
    }
  }

  lemma NextKeeps(w: World, step: Step)
    requires Inv(w)
    ensures Inv(Next(w, step))
  {
    match step
    case Start(c, call) => SameBooks(w, Next(w, step));
    case ReadStore(c, allowed) =>
      if c in w.calls {
        ReadKeepsCall(w, w.calls[c], allowed);
        SameBooks(w, Next(w, step));
      }
    case WriteStore(c) =>
      if c in w.calls && Prepared(w.calls[c]).Some? {
        WrittenKeeps(w, c, Prepared(w.calls[c]).value);
      }
    case Administer(op) =>
      if IsUnitOp(op) {
        AdministerKeeps(w, op);
      }
  }

  lemma {:induction false} RunKeeps(w: World, steps: seq<Step>)
    requires Inv(w)
    ensures Inv(Run(w, steps))
    decreases |steps|
  {
    hide Inv, Next;
    if steps != [] {
      NextKeeps(w, steps[0]);
      RunKeeps(Next(w, steps[0]), steps[1..]);
    }
  }

  // ----- what holds of every run -----

  /** In every interleaving the books of every tenant balance. */
  lemma WorkflowBalances(w: World, steps: seq<Step>, tenant: TenantId)
    requires Initial(w)
    ensures Balanced(Run(w, steps).store, tenant, Run(w, steps).Count(tenant))
    ensures Placed(Run(w, steps).store)
  {
    RunKeeps(w, steps);
  }

  /**
   A cutover whose write succeeds found, at that moment, the very assignment and move it had read, so it
   moves the tenant from the one's unit to the other's active target and leaves everything else alone.
   */
  lemma CutoverActsAtomically(w: World, steps: seq<Step>, w': World, c: CallId)
    requires Initial(w) && w' == Run(w, steps) && c in w'.calls && w'.calls[c].CutoverReady?
    requires Next(w', WriteStore(c)).calls[c].Succeeded?
    ensures var s, after, tenant := w'.store, Next(w', WriteStore(c)).store, w'.calls[c].move.tenant;
      tenant in s.moves && tenant in s.assignments && s.moves[tenant] == w'.calls[c].move &&
      s.moves[tenant].source == s.assignments[tenant].unit && IsActive(s, s.moves[tenant].target) &&
      after.units == s.units && after.moves == s.moves - {tenant} &&
      after.assignments ==
        s.assignments[tenant := Assignment(tenant, s.moves[tenant].target, s.assignments[tenant].version + 1)]
  {
    RunKeeps(w, steps);
    assert CallOk(w'.calls[c]);
    hide Run, Initial, Placed, ValidMove;
  }

  /**
   Left undisturbed, a cutover of a prepared move succeeds, unless the version counter is used up or the policy refuses.
   */
  lemma UndisturbedCutoverSucceeds(w: World, steps: seq<Step>, w': World, c: CallId, tenant: TenantId)
    requires Initial(w) && w' == Run(w, steps) && c !in w'.calls && tenant in w'.store.moves
    ensures tenant in w'.store.assignments
    ensures var s, steps :=
      w'.store, [Start(c, CuttingOver(tenant)), ReadStore(c, true), ReadStore(c, true), ReadStore(c, true)];
      var read := Run(w', steps);
      c in read.calls && read.store == s &&
      if s.assignments[tenant].version == MAX_UINT64 then read.calls[c] == Failed(AssignmentConflict)
      else read.calls[c] == CutoverReady(s.moves[tenant], s.assignments[tenant]) &&
           Next(read, WriteStore(c)).calls[c] == Succeeded
  {
    RunKeeps(w, steps);
    var s := w'.store;
    assert Balanced(s, tenant, w'.Count(tenant));
    CutoverReads(s, tenant);
    hide Inv, Placed, Balanced, AllValid, Next, AfterRead, Prepared, Problem, ValidMove, ValidAssignment;
    var move, assignment := s.moves[tenant], s.assignments[tenant];
    var first, read := Start(c, CuttingOver(tenant)), ReadStore(c, true);
    RunFour(w', first, read);
    StartsCutover(w', c, tenant);
    var w1 := Next(w', first);
    Reads(w1, c);
    Reads(Next(w1, read), c);
    Reads(Next(Next(w1, read), read), c);
    if assignment.version != MAX_UINT64 {
      Writes(Next(Next(Next(w1, read), read), read), c, move, assignment);
    }
  }

  /** What the three reads of a cutover find in a store at rest. */
  lemma CutoverReads(s: Placement, tenant: TenantId)
    requires Placed(s) && AllValid(s) && tenant in s.moves && tenant in s.assignments
    requires s.moves[tenant].tenant == tenant && s.moves[tenant].source == s.assignments[tenant].unit
    requires s.assignments[tenant].tenant == tenant
    ensures var move, assignment := s.moves[tenant], s.assignments[tenant];
      AfterRead(s, CuttingOver(tenant), true) == CutoverMoveRead(move) &&
      AfterRead(s, Failed(AssignmentConflict), true) == Failed(AssignmentConflict) &&
      (assignment.version == MAX_UINT64 ==> AfterRead(s, CutoverMoveRead(move), true) == Failed(AssignmentConflict)) &&
      (assignment.version != MAX_UINT64 ==>
         AfterRead(s, CutoverMoveRead(move), true) == CutoverRead(move, assignment) &&
         AfterRead(s, CutoverRead(move, assignment), true) == CutoverReady(move, assignment) &&
         Problem(s, CutoverMove(assignment, move, NextAssignment(move, assignment))).None?)
  {
    assert ValidMove(s.moves[tenant]) && ValidAssignment(s.assignments[tenant]);
  }

  lemma StartsCutover(w: World, c: CallId, tenant: TenantId)
    requires c !in w.calls
    ensures var w' := Next(w, Start(c, CuttingOver(tenant)));
      w'.store == w.store && c in w'.calls && w'.calls[c] == CuttingOver(tenant)
  {
  }

  lemma Reads(w: World, c: CallId)
    requires c in w.calls
    ensures var w' := Next(w, ReadStore(c, true));
      w'.store == w.store && c in w'.calls && w'.calls[c] == AfterRead(w.store, w.calls[c], true)
  {
  }

  lemma Writes(w: World, c: CallId, move: Move, assignment: Assignment)
    requires c in w.calls && w.calls[c] == CutoverReady(move, assignment)
    requires Problem(w.store, CutoverMove(assignment, move, NextAssignment(move, assignment))).None?
    ensures Next(w, WriteStore(c)).calls[c] == Succeeded
  {
  }

  lemma RunFour(w: World, first: Step, read: Step)
    ensures Run(w, [first, read, read, read]) == Next(Next(Next(Next(w, first), read), read), read)
  {
    hide Next;
    assert [first, read, read, read][1..] == [read, read, read];
    assert [read, read, read][1..] == [read, read] && [read, read][1..] == [read] && [read][1..] == [];
    var w1, w2, w3 := Next(w, first), Next(Next(w, first), read), Next(Next(Next(w, first), read), read);
    assert Run(w3, [read]) == Next(w3, read);
    assert Run(w2, [read, read]) == Run(w3, [read]);
  }
}
