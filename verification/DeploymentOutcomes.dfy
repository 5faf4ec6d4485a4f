/**
 What the deployment store's operations ask and leave, and where the service places tenants: only on units that its
 policy has allowed them, and where it was asked to.
 */
module DeploymentOutcomes {
  import opened Prelude
  import opened WhiteSpace
  import opened DeploymentStore
  import opened DeploymentService

  // ----- what the store asks -----

  predicate IsWholeUnit(unit: Unit) {
    unit.id != "" && exists i :: 0 <= i < |unit.region| && unit.region[i] !in " \t\n\r\U{000C}\U{000B}"
  }

  predicate IsWholeAssignment(a: Assignment) {
    a.tenant != "" && a.unit != "" && 0 < a.version < 0x1_0000_0000_0000_0000
  }

  predicate IsWholeMove(m: Move) { m.tenant != "" && m.source != "" && m.target != "" && m.source != m.target }

  /** No assignment and no move names the unit. */
  predicate IsFree(s: Placement, id: UnitId) {
    (forall t :: t in s.assignments ==> s.assignments[t].unit != id) &&
    forall t :: t in s.moves ==> s.moves[t].source != id && s.moves[t].target != id
  }

  /** The operation is well formed and fits the store as it is. */
  predicate MayPerform(s: Placement, op: Op) {
    match op
    case CreateUnit(unit) => IsWholeUnit(unit) && unit.id !in s.units
    case UpdateUnit(unit) => IsWholeUnit(unit) && unit.id in s.units && unit.status == s.units[unit.id].status
    case DisableUnit(id) => id != "" && id in s.units && (s.units[id].status == Disabled || IsFree(s, id))
    case DeleteUnit(id) => id != "" && id in s.units && IsFree(s, id)
    case CreateAssignment(a) => IsWholeAssignment(a) && IsActive(s, a.unit) && a.tenant !in s.assignments
    case CompareAndSwapAssignment(expected, updated) =>
      IsWholeAssignment(expected) && IsWholeAssignment(updated) && updated.tenant == expected.tenant &&
      expected.tenant in s.assignments && s.assignments[expected.tenant] == expected && IsActive(s, updated.unit)
    case CutoverMove(expected, move, updated) =>
      IsWholeAssignment(expected) && IsWholeMove(move) && IsWholeAssignment(updated) &&
      move.tenant == expected.tenant && expected.unit == move.source &&
      updated == Assignment(expected.tenant, move.target, expected.version + 1) &&
      move.tenant in s.moves && s.moves[move.tenant] == move &&
      expected.tenant in s.assignments && s.assignments[expected.tenant] == expected && IsActive(s, move.target)
    case CreateMove(move) =>
      IsWholeMove(move) && IsActive(s, move.target) && move.tenant in s.assignments &&
      s.assignments[move.tenant].unit == move.source && move.tenant !in s.moves
    case DeleteMove(tenant) => tenant != "" && tenant in s.moves
    case DeleteMoveIfMatch(move) => IsWholeMove(move) && move.tenant in s.moves && s.moves[move.tenant] == move
  }

  lemma WholeExactly(unit: Unit)
    ensures IsWholeUnit(unit) <==> ValidUnit(unit)
  {
    forall i | 0 <= i < |unit.region|
      ensures IsSpace(unit.region[i]) <==> unit.region[i] in " \t\n\r\U{000C}\U{000B}"
    {
    }
  }

  lemma FreeExactly(s: Placement, id: UnitId)
    ensures IsFree(s, id) <==> !IsReferenced(s, id)
  {
  }

  /** An operation is accepted exactly when it may be performed. */
  lemma PerformsExactly(s: Placement, op: Op)
    ensures Problem(s, op).None? <==> MayPerform(s, op)
  {
    if op.CreateUnit? || op.UpdateUnit? {
      WholeExactly(op.unit);
    } else if op.DisableUnit? || op.DeleteUnit? {
      FreeExactly(s, op.id);
    }
    hide IsWholeUnit, ValidUnit, IsFree, IsReferenced;
  }

  // ----- what the store answers -----

  /** Why a unit, an assignment or a move that is otherwise in order is refused. */
  lemma RefusedFor(s: Placement, op: Op)
    ensures (op.DisableUnit? || op.DeleteUnit?) && op.id != "" && op.id in s.units && !MayPerform(s, op) ==>
      Problem(s, op) == Some(UnitInUse)
    ensures op.CreateUnit? && IsWholeUnit(op.unit) && op.unit.id in s.units ==>
      Problem(s, op) == Some(UnitAlreadyExists)
    ensures op.CreateAssignment? && IsWholeAssignment(op.assignment) ==>
      var unit := op.assignment.unit;
      (unit !in s.units ==> Problem(s, op) == Some(UnitNotFound)) &&
      (unit in s.units && s.units[unit].status == Disabled ==> Problem(s, op) == Some(UnitUnavailable)) &&
      (IsActive(s, unit) && op.assignment.tenant in s.assignments ==> Problem(s, op) == Some(AssignmentAlreadyExists))
    ensures op.CreateMove? && IsWholeMove(op.move) && IsActive(s, op.move.target) && op.move.tenant in s.assignments ==>
      (s.assignments[op.move.tenant].unit != op.move.source ==> Problem(s, op) == Some(MoveConflict)) &&
      (s.assignments[op.move.tenant].unit == op.move.source && op.move.tenant in s.moves ==>
        Problem(s, op) == Some(MoveAlreadyExists))
    ensures op.CutoverMove? && IsWholeAssignment(op.expected) && IsWholeMove(op.move) ==>
      (IsWholeAssignment(op.updated) && op.move.tenant in s.moves && s.moves[op.move.tenant] != op.move ==>
        Problem(s, op) == Some(MoveConflict))
  {
    if op.CreateUnit? {
      WholeExactly(op.unit);
    } else if op.DisableUnit? || op.DeleteUnit? {
      FreeExactly(s, op.id);
    }
    hide IsWholeUnit, ValidUnit, IsFree, IsReferenced;
  }

  // ----- what the store leaves -----

  /** Maps that agree everywhere but perhaps at one key. */
  ghost predicate SameBut<K(!new), V>(m: map<K, V>, m': map<K, V>, key: K) {
    forall k :: k != key ==> (k in m <==> k in m') && (k in m ==> m[k] == m'[k])
  }

  /** Only the record an operation is about changes, to what the operation says. */
  ghost predicate Leaves(s: Placement, op: Op, s': Placement) {
    match op
    case CreateUnit(unit) =>
      s'.assignments == s.assignments && s'.moves == s.moves && SameBut(s.units, s'.units, unit.id) &&
      unit.id in s'.units && s'.units[unit.id] == unit
    case UpdateUnit(unit) =>
      s'.assignments == s.assignments && s'.moves == s.moves && SameBut(s.units, s'.units, unit.id) &&
      unit.id in s'.units && s'.units[unit.id] == unit
    case DisableUnit(id) =>
      s'.assignments == s.assignments && s'.moves == s.moves && SameBut(s.units, s'.units, id) &&
      id in s.units && id in s'.units && s'.units[id].status == Disabled && s'.units[id].id == s.units[id].id &&
      s'.units[id].region == s.units[id].region && s'.units[id].metadata == s.units[id].metadata
    case DeleteUnit(id) =>
      s'.assignments == s.assignments && s'.moves == s.moves && SameBut(s.units, s'.units, id) && id !in s'.units
    case CreateAssignment(a) =>
      s'.units == s.units && s'.moves == s.moves && IsAssigned(s, s', a)
    case CompareAndSwapAssignment(_, updated) =>
      s'.units == s.units && s'.moves == s.moves && IsAssigned(s, s', updated)
    case CutoverMove(_, move, updated) =>
      s'.units == s.units && IsAssigned(s, s', updated) && SameBut(s.moves, s'.moves, move.tenant) &&
      move.tenant !in s'.moves
    case CreateMove(move) =>
      s'.units == s.units && s'.assignments == s.assignments && SameBut(s.moves, s'.moves, move.tenant) &&
      move.tenant in s'.moves && s'.moves[move.tenant] == move
    case DeleteMove(tenant) =>
      s'.units == s.units && s'.assignments == s.assignments && SameBut(s.moves, s'.moves, tenant) &&
      tenant !in s'.moves
    case DeleteMoveIfMatch(move) =>
      s'.units == s.units && s'.assignments == s.assignments && SameBut(s.moves, s'.moves, move.tenant) &&
      move.tenant !in s'.moves
  }

  ghost predicate IsAssigned(s: Placement, s': Placement, a: Assignment) {
    SameBut(s.assignments, s'.assignments, a.tenant) && a.tenant in s'.assignments && s'.assignments[a.tenant] == a
  }

  /** An operation that may be performed leaves its record, and any other leaves everything. */
  lemma PerformLeaves(s: Placement, op: Op)
    ensures if MayPerform(s, op) then Leaves(s, op, Perform(s, op)) else Perform(s, op) == s
  {
    PerformsExactly(s, op);
    hide Problem, MayPerform;
    if MayPerform(s, op) {
      if op.DisableUnit? {
        KnowsUnit(s, op);
      }
      EffectLeaves(s, op);
    }
  }

  lemma KnowsUnit(s: Placement, op: Op)
    requires op.DisableUnit? && MayPerform(s, op)
    ensures op.id in s.units
  {
  }

  lemma EffectLeaves(s: Placement, op: Op)
    requires op.DisableUnit? ==> op.id in s.units
    ensures Leaves(s, op, Effect(s, op))
  {
  }

  // ----- where the service places tenants -----

  /** The placement that a call is about to have admitted by the policy. */
  function Asked(call: Call): Option<(TenantId, UnitId)> {
    match call
    case Assigning(tenant, unit) => Some((tenant, unit))
    case PrepareRead(tenant, _, target) => Some((tenant, target))
    case CutoverRead(move, _) => Some((move.tenant, move.target))
    case _ => None
  }

  /** Whatever the policy allows in the course of the run is one of these placements. */
  ghost predicate Permits(w: World, steps: seq<Step>, allowed: set<(TenantId, UnitId)>)
    decreases |steps|
  {
    steps != [] ==>
      (steps[0].ReadStore? && steps[0].c in w.calls && steps[0].allowed && Asked(w.calls[steps[0].c]).Some? ==>
        Asked(w.calls[steps[0].c]).value in allowed) &&
      Permits(Next(w, steps[0]), steps[1..], allowed)
  }

  ghost predicate CallPermitted(call: Call, allowed: set<(TenantId, UnitId)>) {
    (call.AssignReady? ==> (call.assignment.tenant, call.assignment.unit) in allowed) &&
    (call.PrepareReady? ==> (call.move.tenant, call.move.target) in allowed) &&
    (call.CutoverReady? ==>
      (call.move.tenant, call.move.target) in allowed && call.expected.tenant == call.move.tenant) &&
    (call.CutoverRead? ==> call.expected.tenant == call.move.tenant)
  }

  ghost predicate AllPermitted(w: World, allowed: set<(TenantId, UnitId)>) {
    (forall t :: t in w.store.assignments ==>
      w.store.assignments[t].tenant == t && (t, w.store.assignments[t].unit) in allowed) &&
    (forall t :: t in w.store.moves ==> w.store.moves[t].tenant == t && (t, w.store.moves[t].target) in allowed) &&
    forall c :: c in w.calls ==> CallPermitted(w.calls[c], allowed)
  }

  lemma ReadPermitted(w: World, c: CallId, admit: bool, allowed: set<(TenantId, UnitId)>)
    requires AllPermitted(w, allowed) && c in w.calls
    requires admit && Asked(w.calls[c]).Some? ==> Asked(w.calls[c]).value in allowed
    ensures CallPermitted(AfterRead(w.store, w.calls[c], admit), allowed)
  {
    assert CallPermitted(w.calls[c], allowed);
    hide UnitProblem;
  }

  lemma WritePermitted(w: World, c: CallId, allowed: set<(TenantId, UnitId)>)
    requires AllPermitted(w, allowed) && c in w.calls && Prepared(w.calls[c]).Some?
    ensures AllPermitted(Written(w, c, Prepared(w.calls[c]).value), allowed)
  {
    var op := Prepared(w.calls[c]).value;
    assert CallPermitted(w.calls[c], allowed);
    hide Problem, Counted, Target;
  }

  lemma AdminPermitted(w: World, op: Op, allowed: set<(TenantId, UnitId)>)
    requires AllPermitted(w, allowed) && IsUnitOp(op)
    ensures AllPermitted(w.(store := Perform(w.store, op)), allowed)
  {
    hide Problem, CallPermitted;
  }

  lemma NextPermitted(w: World, step: Step, allowed: set<(TenantId, UnitId)>)
    requires AllPermitted(w, allowed) && Permits(w, [step], allowed)
    ensures AllPermitted(Next(w, step), allowed)
  {
    hide Perform, AfterRead, Written;
    match step
    case Start(c, call) =>
    case ReadStore(c, admit) =>
      if c in w.calls {
        ReadPermitted(w, c, admit, allowed);
      }
    case WriteStore(c) =>
      if c in w.calls && Prepared(w.calls[c]).Some? {
        WritePermitted(w, c, allowed);
      }
    case Administer(op) =>
      if IsUnitOp(op) {
        AdminPermitted(w, op, allowed);
      }
  }

  lemma {:induction false} RunPermitted(w: World, steps: seq<Step>, allowed: set<(TenantId, UnitId)>)
    requires AllPermitted(w, allowed) && Permits(w, steps, allowed)
    ensures AllPermitted(Run(w, steps), allowed)
    decreases |steps|
  {
    hide Next, AllPermitted, Asked;
    if steps != [] {
      assert Permits(w, [steps[0]], allowed) by { assert [steps[0]][1..] == []; }
      NextPermitted(w, steps[0], allowed);
      RunPermitted(Next(w, steps[0]), steps[1..], allowed);
    }
  }

  /** In every run tenants are placed, and moves prepared, only where the policy has allowed it. */
  lemma PlacedOnlyWhereAllowed(w: World, steps: seq<Step>, allowed: set<(TenantId, UnitId)>, t: TenantId)
    requires Initial(w) && Permits(w, steps, allowed)
    ensures var s := Run(w, steps).store;
      (t in s.assignments ==> (t, s.assignments[t].unit) in allowed) &&
      (t in s.moves ==> (t, s.moves[t].target) in allowed)
  {
    RunPermitted(w, steps, allowed);
    hide Run, Permits;
  }

  // ----- undisturbed calls -----

  /** The unit is not for the tenant: unknown, disabled, or denied by the policy. */
  predicate IsUnsuited(s: Placement, unit: UnitId, admit: bool, error: Error) {
    (error == UnitNotFound && unit !in s.units) ||
    (error == UnitUnavailable && unit in s.units && s.units[unit].status == Disabled) ||
    (error == PolicyDenied && IsActive(s, unit) && !admit)
  }

  /** What is the matter with a call that reads this. */
  predicate IsReason(s: Placement, call: Call, admit: bool, error: Error) {
    if call.Assigning? then
      if call.tenant == "" || call.unit == "" then error == InvalidAssignment
      else IsUnsuited(s, call.unit, admit, error)
    else if call.Preparing? then
      if call.tenant == "" || call.target == "" then error == InvalidMove
      else if call.tenant !in s.assignments then error == AssignmentNotFound
      else error == InvalidMove && s.assignments[call.tenant].unit == call.target
    else if call.PrepareRead? then IsUnsuited(s, call.target, admit, error)
    else if call.CutoverRead? then IsUnsuited(s, call.move.target, admit, error)
    else if call.CutoverMoveRead? then
      if call.move.tenant !in s.assignments then error == AssignmentNotFound
      else if s.assignments[call.move.tenant].unit != call.move.source then error == MoveConflict
      else error == AssignmentConflict && s.assignments[call.move.tenant].version == 0xFFFF_FFFF_FFFF_FFFF
    else
      (call.CuttingOver? || call.Cancelling?) &&
      if call.tenant == "" then error == InvalidMove else error == MoveNotFound && call.tenant !in s.moves
  }

  /** A read fails exactly for such a reason, and then with its error. */
  lemma ReadsExactly(s: Placement, call: Call, admit: bool)
    ensures var next := AfterRead(s, call, admit);
      !call.Failed? ==>
        (next.Failed? ==> IsReason(s, call, admit, next.error)) &&
        ((exists error :: IsReason(s, call, admit, error)) ==> next.Failed?)
  {
  }

  lemma RunThree(w: World, a: Step, b: Step, c: Step)
    ensures Run(w, [a, b, c]) == Next(Next(Next(w, a), b), c)
  {
    hide Next;
    assert [a, b, c][1..] == [b, c] && [b, c][1..] == [c] && [c][1..] == [];
    assert Run(Next(Next(w, a), b), [c]) == Next(Next(Next(w, a), b), c);
    assert Run(Next(w, a), [b, c]) == Run(Next(Next(w, a), b), [c]);
  }

  lemma Begins(w: World, c: CallId, call: Call)
    requires c !in w.calls && IsStart(call)
    ensures var w' := Next(w, Start(c, call)); w'.store == w.store && c in w'.calls && w'.calls[c] == call
  {
  }

  lemma Reads(w: World, c: CallId, admit: bool)
    requires c in w.calls
    ensures var w' := Next(w, ReadStore(c, admit));
      w'.store == w.store && c in w'.calls && w'.calls[c] == AfterRead(w.store, w.calls[c], admit)
  {
  }

  lemma WritesTo(w: World, c: CallId, op: Op)
    requires c in w.calls && Prepared(w.calls[c]) == Some(op)
    ensures var w' := Next(w, WriteStore(c));
      c in w'.calls && w'.store == Perform(w.store, op) && (w'.calls[c] == Succeeded <==> Problem(w.store, op).None?)
  {
  }

  /**
   Left alone, an assignment succeeds exactly when the unit is active, the policy allows it and the tenant has none yet;
   the tenant is then on that unit, at version one.
   */
  lemma UndisturbedAssign(w: World, c: CallId, tenant: TenantId, unit: UnitId, admit: bool)
    requires c !in w.calls
    ensures var w' := Run(w, [Start(c, Assigning(tenant, unit)), ReadStore(c, admit), WriteStore(c)]);
      c in w'.calls &&
      if tenant != "" && unit != "" && IsActive(w.store, unit) && admit && tenant !in w.store.assignments
      then w'.calls[c] == Succeeded && Leaves(w.store, CreateAssignment(Assignment(tenant, unit, 1)), w'.store)
      else w'.calls[c].Failed? && w'.store == w.store
  {
    var start, read, write := Start(c, Assigning(tenant, unit)), ReadStore(c, admit), WriteStore(c);
    var op := CreateAssignment(Assignment(tenant, unit, 1));
    RunThree(w, start, read, write);
    Begins(w, c, Assigning(tenant, unit));
    Reads(Next(w, start), c, admit);
    var w2 := Next(Next(w, start), read);
    AssignReads(w.store, tenant, unit, admit);
    PerformsExactly(w.store, op);
    PerformLeaves(w.store, op);
    if w2.calls[c].AssignReady? {
      WritesTo(w2, c, op);
      FailsOrNot(w2, c, op);
    } else {
      Idle(w2, c);
    }
    hide Run, Next, Perform, Leaves, Problem, AfterRead;
  }

  lemma AssignReads(s: Placement, tenant: TenantId, unit: UnitId, admit: bool)
    ensures var next := AfterRead(s, Assigning(tenant, unit), admit);
      if tenant != "" && unit != "" && IsActive(s, unit) && admit then next == AssignReady(Assignment(tenant, unit, 1))
      else next.Failed?
  {
  }

  lemma FailsOrNot(w: World, c: CallId, op: Op)
    requires c in w.calls && Prepared(w.calls[c]) == Some(op)
    ensures Next(w, WriteStore(c)).calls[c].Failed? <==> Problem(w.store, op).Some?
  {
  }

  /** Calls that have failed write nothing. */
  lemma Idle(w: World, c: CallId)
    requires c in w.calls && w.calls[c].Failed?
    ensures Next(w, WriteStore(c)) == w
  {
  }

  lemma RunFourSteps(w: World, a: Step, b: Step, c: Step, d: Step)
    ensures Run(w, [a, b, c, d]) == Next(Next(Next(Next(w, a), b), c), d)
  {
    hide Next;
    assert [a, b, c, d][1..] == [b, c, d];
    assert Run(w, [a, b, c, d]) == Run(Next(w, a), [b, c, d]);
    RunThree(Next(w, a), b, c, d);
  }

  /**
   Left alone, a move is prepared exactly when the tenant is somewhere else, the target is active and allowed, and no
   move is prepared yet.
   */
  lemma UndisturbedPrepare(w: World, steps: seq<Step>, w': World, c: CallId, tenant: TenantId, target: UnitId,
          admit: bool)
    requires Initial(w) && w' == Run(w, steps) && c !in w'.calls
    ensures var s, read := w'.store, ReadStore(c, admit);
      var w'' := Run(w', [Start(c, Preparing(tenant, target)), read, read, WriteStore(c)]);
      c in w''.calls &&
      if tenant != "" && target != "" && tenant in s.assignments && s.assignments[tenant].unit != target &&
        IsActive(s, target) && admit && tenant !in s.moves
      then w''.calls[c] == Succeeded &&
        Leaves(s, CreateMove(Move(tenant, s.assignments[tenant].unit, target)), w''.store)
      else w''.calls[c].Failed? && w''.store == s
  {
    RunKeeps(w, steps);
    assert AllValid(w'.store);
    hide Run, Next, Inv, Problem, AllValid, AfterRead, Leaves, Perform, Prepared;
    var start, read, write := Start(c, Preparing(tenant, target)), ReadStore(c, admit), WriteStore(c);
    RunFourSteps(w', start, read, read, write);
    Begins(w', c, Preparing(tenant, target));
    var w1 := Next(w', start);
    Reads(w1, c, admit);
    Reads(Next(w1, read), c, admit);
    PrepareReads(w'.store, tenant, target, admit);
    var w3 := Next(Next(w1, read), read);
    if w3.calls[c].PrepareReady? {
      PrepareWrites(w3, c, tenant, target);
    } else {
      Idle(w3, c);
    }
  }

  lemma PrepareReads(s: Placement, tenant: TenantId, target: UnitId, admit: bool)
    ensures var next := AfterRead(s, AfterRead(s, Preparing(tenant, target), admit), admit);
      if tenant != "" && target != "" && tenant in s.assignments && s.assignments[tenant].unit != target &&
        IsActive(s, target) && admit
      then next == PrepareReady(Move(tenant, s.assignments[tenant].unit, target))
      else next.Failed?
  {
  }

  lemma PrepareWrites(w: World, c: CallId, tenant: TenantId, target: UnitId)
    requires c in w.calls && AllValid(w.store) && tenant in w.store.assignments && tenant != "" && target != ""
    requires w.store.assignments[tenant].unit != target && IsActive(w.store, target)
    requires w.calls[c] == PrepareReady(Move(tenant, w.store.assignments[tenant].unit, target))
    ensures var w' := Next(w, WriteStore(c));
      c in w'.calls &&
      if tenant !in w.store.moves then w'.calls[c] == Succeeded &&
        Leaves(w.store, CreateMove(Move(tenant, w.store.assignments[tenant].unit, target)), w'.store)
      else w'.calls[c].Failed? && w'.store == w.store
  {
    var op := CreateMove(Move(tenant, w.store.assignments[tenant].unit, target));
    assert ValidAssignment(w.store.assignments[tenant]);
    assert MayPerform(w.store, op) <==> tenant !in w.store.moves;
    PerformsExactly(w.store, op);
    PerformLeaves(w.store, op);
    WritesTo(w, c, op);
    FailsOrNot(w, c, op);
    hide Next, Problem, Leaves, Perform, AllValid, MayPerform;
  }

  lemma CancelReads(s: Placement, tenant: TenantId)
    requires AllValid(s) && (tenant in s.moves ==> s.moves[tenant].tenant == tenant)
    ensures var next := AfterRead(s, Cancelling(tenant), true);
      if tenant != "" && tenant in s.moves then
        next == CancelReady(s.moves[tenant]) && Problem(s, DeleteMoveIfMatch(s.moves[tenant])).None? &&
        Perform(s, DeleteMoveIfMatch(s.moves[tenant])) == s.(moves := s.moves - {tenant})
      else next.Failed?
  {
    hide ValidMove, ValidAssignment;
  }

  /** Left alone, a cancel succeeds exactly when there is a move, and removes it. */
  lemma UndisturbedCancel(w: World, steps: seq<Step>, w': World, c: CallId, tenant: TenantId)
    requires Initial(w) && w' == Run(w, steps) && c !in w'.calls
    ensures var w'' := Run(w', [Start(c, Cancelling(tenant)), ReadStore(c, true), WriteStore(c)]);
      c in w''.calls &&
      if tenant != "" && tenant in w'.store.moves
      then w''.calls[c] == Succeeded && w''.store == w'.store.(moves := w'.store.moves - {tenant})
      else w''.calls[c].Failed? && w''.store == w'.store
  {
    RunKeeps(w, steps);
    assert Balanced(w'.store, tenant, w'.Count(tenant)) && AllValid(w'.store);
    CancelReads(w'.store, tenant);
    hide Run, Next, Inv, Placed, Problem, Balanced, AllValid, AfterRead, Perform;
    var start, read, write := Start(c, Cancelling(tenant)), ReadStore(c, true), WriteStore(c);
    RunThree(w', start, read, write);
    Begins(w', c, Cancelling(tenant));
    Reads(Next(w', start), c, true);
    var w2 := Next(Next(w', start), read);
    if w2.calls[c].CancelReady? {
      WritesTo(w2, c, DeleteMoveIfMatch(w'.store.moves[tenant]));
    } else {
      Idle(w2, c);
    }
  }
}
