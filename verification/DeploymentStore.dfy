/** The deployment store: units, current assignments and prepared moves, and its atomic operations. */
module DeploymentStore {
  import opened Prelude
  import opened WhiteSpace

  type TenantId = string

  type UnitId = string

  const MAX_UINT64: nat := 0xFFFF_FFFF_FFFF_FFFF

  datatype UnitStatus = Active | Disabled

  /** `metadata` stands for residency tags and free-form metadata. */
  datatype Unit = Unit(id: UnitId, region: string, status: UnitStatus, metadata: string)

  datatype Assignment = Assignment(tenant: TenantId, unit: UnitId, version: nat)

  datatype Move = Move(tenant: TenantId, source: UnitId, target: UnitId)

  datatype Error =
    | InvalidUnit | UnitNotFound | UnitAlreadyExists | UnitUnavailable | UnitInUse
    | InvalidAssignment | AssignmentNotFound | AssignmentAlreadyExists | AssignmentConflict
    | InvalidMove | MoveNotFound | MoveAlreadyExists | MoveConflict | PolicyDenied

  datatype Placement = Placement(
    units: map<UnitId, Unit>, assignments: map<TenantId, Assignment>, moves: map<TenantId, Move>)

  // ----- validation -----

  predicate ValidUnit(unit: Unit) { unit.id != "" && !IsBlank(unit.region) }

  predicate ValidAssignment(a: Assignment) { a.tenant != "" && a.unit != "" && 0 < a.version <= MAX_UINT64 }

  predicate ValidMove(m: Move) { m.tenant != "" && m.source != "" && m.target != "" && m.source != m.target }

  // ----- the operations on values -----

  predicate IsReferenced(s: Placement, id: UnitId) {
    (exists t :: t in s.assignments && s.assignments[t].unit == id) ||
    (exists t :: t in s.moves && (s.moves[t].source == id || s.moves[t].target == id))
  }

  /** Why a unit cannot take a placement. */
  function UnitProblem(s: Placement, id: UnitId): Option<Error> {
    if id !in s.units then Some(UnitNotFound)
    else if !s.units[id].status.Active? then Some(UnitUnavailable)
    else None
  }

  datatype Op =
    | CreateUnit(unit: Unit)
    | UpdateUnit(unit: Unit)
    | DisableUnit(id: UnitId)
    | DeleteUnit(id: UnitId)
    | CreateAssignment(assignment: Assignment)
    | CompareAndSwapAssignment(expected: Assignment, updated: Assignment)
    | CutoverMove(expected: Assignment, move: Move, updated: Assignment)
    | CreateMove(move: Move)
    | DeleteMove(tenant: TenantId)
    | DeleteMoveIfMatch(move: Move)

  /** Why an operation is refused. */
  function Problem(s: Placement, op: Op): Option<Error> {
    match op
    case CreateUnit(unit) =>
      if !ValidUnit(unit) then Some(InvalidUnit) else if unit.id in s.units then Some(UnitAlreadyExists) else None
    case UpdateUnit(unit) =>
      if !ValidUnit(unit) then Some(InvalidUnit)
      else if unit.id !in s.units then Some(UnitNotFound)
      else if s.units[unit.id].status != unit.status then Some(InvalidUnit)
      else None
    case DisableUnit(id) =>
      if id == "" then Some(InvalidUnit)
      else if id !in s.units then Some(UnitNotFound)
      else if s.units[id].status.Active? && IsReferenced(s, id) then Some(UnitInUse)
      else None
    case DeleteUnit(id) =>
      if id == "" then Some(InvalidUnit)
      else if id !in s.units then Some(UnitNotFound)
      else if IsReferenced(s, id) then Some(UnitInUse)
      else None
    case CreateAssignment(a) =>
      if !ValidAssignment(a) then Some(InvalidAssignment)
      else if UnitProblem(s, a.unit).Some? then UnitProblem(s, a.unit)
      else if a.tenant in s.assignments then Some(AssignmentAlreadyExists)
      else None
    case CompareAndSwapAssignment(expected, updated) =>
      if !ValidAssignment(expected) || !ValidAssignment(updated) || expected.tenant != updated.tenant then
        Some(InvalidAssignment)
      else if expected.tenant !in s.assignments then Some(AssignmentNotFound)
      else if s.assignments[expected.tenant] != expected then Some(AssignmentConflict)
      else UnitProblem(s, updated.unit)
    case CutoverMove(expected, move, updated) =>
      if !ValidAssignment(expected) then Some(InvalidAssignment)
      else if !ValidMove(move) then Some(InvalidMove)
      else if !ValidAssignment(updated) then Some(InvalidAssignment)
      else if expected.tenant != updated.tenant || move.tenant != expected.tenant || expected.unit != move.source ||
              updated.unit != move.target || updated.version != (expected.version + 1) % (MAX_UINT64 + 1) then
                Some(MoveConflict)
      else if move.tenant !in s.moves then Some(MoveNotFound)
      else if s.moves[move.tenant] != move then Some(MoveConflict)
      else if expected.tenant !in s.assignments then Some(AssignmentNotFound)
      else if s.assignments[expected.tenant] != expected then Some(AssignmentConflict)
      else UnitProblem(s, updated.unit)
    case CreateMove(move) =>
      if !ValidMove(move) then Some(InvalidMove)
      else if UnitProblem(s, move.target).Some? then UnitProblem(s, move.target)
      else if move.tenant !in s.assignments then Some(AssignmentNotFound)
      else if s.assignments[move.tenant].unit != move.source then Some(MoveConflict)
      else if move.tenant in s.moves then Some(MoveAlreadyExists)
      else None
    case DeleteMove(tenant) =>
      if tenant == "" then Some(InvalidMove) else if tenant !in s.moves then Some(MoveNotFound) else None
    case DeleteMoveIfMatch(move) =>
      if !ValidMove(move) then Some(InvalidMove)
      else if move.tenant !in s.moves then Some(MoveNotFound)
      else if s.moves[move.tenant] != move then Some(MoveConflict)
      else None
  }

  /** What an accepted operation leaves. */
  function Effect(s: Placement, op: Op): Placement {
    match op
    case CreateUnit(unit) => s.(units := s.units[unit.id := unit])
    case UpdateUnit(unit) => s.(units := s.units[unit.id := unit])
    case DisableUnit(id) => if id in s.units then s.(units := s.units[id := s.units[id].(status := Disabled)]) else s
    case DeleteUnit(id) => s.(units := s.units - {id})
    case CreateAssignment(a) => s.(assignments := s.assignments[a.tenant := a])
    case CompareAndSwapAssignment(_, updated) => s.(assignments := s.assignments[updated.tenant := updated])
    case CutoverMove(_, move, updated) =>
      s.(assignments := s.assignments[updated.tenant := updated], moves := s.moves - {move.tenant})
    case CreateMove(move) => s.(moves := s.moves[move.tenant := move])
    case DeleteMove(tenant) => s.(moves := s.moves - {tenant})
    case DeleteMoveIfMatch(move) => s.(moves := s.moves - {move.tenant})
  }

  function Perform(s: Placement, op: Op): Placement { if Problem(s, op).None? then Effect(s, op) else s }

  // ----- the object -----

  class MemoryStore {
    var units: map<UnitId, Unit>
    var assignments: map<TenantId, Assignment>
    var moves: map<TenantId, Move>

    constructor ()
      ensures Value() == Placement(map[], map[], map[])
    {
      units, assignments, moves := map[], map[], map[];
    }

    function Value(): Placement
      reads this
    {
      Placement(units, assignments, moves)
    }

    method UnitReferencedLocked(id: UnitId) returns (referenced: bool)
      ensures referenced <==> IsReferenced(Value(), id)
    {
      var tenants := assignments.Keys;
      while tenants != {}
        invariant tenants <= assignments.Keys
        invariant forall t :: t in assignments && t !in tenants ==> assignments[t].unit != id
        decreases |tenants|
      {
        var t :| t in tenants;
        if assignments[t].unit == id {
          return true;
        }
        tenants := tenants - {t};
      }
      tenants := moves.Keys;
      while tenants != {}
        invariant tenants <= moves.Keys
        invariant forall t :: t in moves && t !in tenants ==> moves[t].source != id && moves[t].target != id
        decreases |tenants|
      {
        var t :| t in tenants;
        if moves[t].source == id || moves[t].target == id {
          return true;
        }
        tenants := tenants - {t};
      }
      return false;
    }

    method CreateUnit(unit: Unit) returns (error: Option<Error>)
      modifies this
      ensures error == Problem(old(Value()), Op.CreateUnit(unit)) &&
        Value() == Perform(old(Value()), Op.CreateUnit(unit))
    {
      if !ValidUnit(unit) {
        return Some(InvalidUnit);
      }
      if unit.id in units {
        return Some(UnitAlreadyExists);
      }
      units := units[unit.id := unit];
      return None;
    }

    method UpdateUnit(unit: Unit) returns (error: Option<Error>)
      modifies this
      ensures error == Problem(old(Value()), Op.UpdateUnit(unit)) &&
        Value() == Perform(old(Value()), Op.UpdateUnit(unit))
    {
      if !ValidUnit(unit) {
        return Some(InvalidUnit);
      }
      if unit.id !in units {
        return Some(UnitNotFound);
      }
      if units[unit.id].status != unit.status {
        return Some(InvalidUnit);
      }
      units := units[unit.id := unit];
      return None;
    }

    method DisableUnit(id: UnitId) returns (changed: bool, error: Option<Error>)
      modifies this
      ensures error == Problem(old(Value()), Op.DisableUnit(id)) && Value() == Perform(old(Value()), Op.DisableUnit(id))
      ensures error.None? ==> changed == old(units)[id].status.Active?
    {
      if id == "" {
        return false, Some(InvalidUnit);
      }
      if id !in units {
        return false, Some(UnitNotFound);
      }
      if units[id].status.Disabled? {
        assert units == units[id := units[id].(status := Disabled)];
        return false, None;
      }
      var referenced := UnitReferencedLocked(id);
      if referenced {
        return false, Some(UnitInUse);
      }
      units := units[id := units[id].(status := Disabled)];
      return true, None;
    }

    method DeleteUnit(id: UnitId) returns (error: Option<Error>)
      modifies this
      ensures error == Problem(old(Value()), Op.DeleteUnit(id)) && Value() == Perform(old(Value()), Op.DeleteUnit(id))
    {
      if id == "" {
        return Some(InvalidUnit);
      }
      if id !in units {
        return Some(UnitNotFound);
      }
      var referenced := UnitReferencedLocked(id);
      if referenced {
        return Some(UnitInUse);
      }
      units := units - {id};
      return None;
    }

    method CreateAssignment(a: Assignment) returns (error: Option<Error>)
      modifies this
      ensures error == Problem(old(Value()), Op.CreateAssignment(a)) &&
        Value() == Perform(old(Value()), Op.CreateAssignment(a))
    {
      if !ValidAssignment(a) {
        return Some(InvalidAssignment);
      }
      if a.unit !in units {
        return Some(UnitNotFound);
      }
      if !units[a.unit].status.Active? {
        return Some(UnitUnavailable);
      }
      if a.tenant in assignments {
        return Some(AssignmentAlreadyExists);
      }
      assignments := assignments[a.tenant := a];
      return None;
    }

    method CompareAndSwapAssignment(expected: Assignment, updated: Assignment) returns (error: Option<Error>)
      modifies this
      ensures var op := Op.CompareAndSwapAssignment(expected, updated);
        error == Problem(old(Value()), op) && Value() == Perform(old(Value()), op)
    {
      if !ValidAssignment(expected) || !ValidAssignment(updated) || expected.tenant != updated.tenant {
        return Some(InvalidAssignment);
      }
      if expected.tenant !in assignments {
        return Some(AssignmentNotFound);
      }
      if assignments[expected.tenant] != expected {
        return Some(AssignmentConflict);
      }
      if updated.unit !in units {
        return Some(UnitNotFound);
      }
      if !units[updated.unit].status.Active? {
        return Some(UnitUnavailable);
      }
      assignments := assignments[updated.tenant := updated];
      return None;
    }

    method CutoverMove(expected: Assignment, move: Move, updated: Assignment) returns (error: Option<Error>)
      modifies this
      ensures var op := Op.CutoverMove(expected, move, updated);
        error == Problem(old(Value()), op) && Value() == Perform(old(Value()), op)
    {
      if !ValidAssignment(expected) {
        return Some(InvalidAssignment);
      }
      if !ValidMove(move) {
        return Some(InvalidMove);
      }
      if !ValidAssignment(updated) {
        return Some(InvalidAssignment);
      }
      if expected.tenant != updated.tenant || move.tenant != expected.tenant || expected.unit != move.source ||
         updated.unit != move.target || updated.version != (expected.version + 1) % (MAX_UINT64 + 1) {
        return Some(MoveConflict);
      }
      if move.tenant !in moves {
        return Some(MoveNotFound);
      }
      if moves[move.tenant] != move {
        return Some(MoveConflict);
      }
      if expected.tenant !in assignments {
        return Some(AssignmentNotFound);
      }
      if assignments[expected.tenant] != expected {
        return Some(AssignmentConflict);
      }
      if updated.unit !in units {
        return Some(UnitNotFound);
      }
      if !units[updated.unit].status.Active? {
        return Some(UnitUnavailable);
      }
      assignments := assignments[updated.tenant := updated];
      moves := moves - {move.tenant};
      return None;
    }

    method CreateMove(move: Move) returns (error: Option<Error>)
      modifies this
      ensures error == Problem(old(Value()), Op.CreateMove(move)) &&
        Value() == Perform(old(Value()), Op.CreateMove(move))
    {
      if !ValidMove(move) {
        return Some(InvalidMove);
      }
      if move.target !in units {
        return Some(UnitNotFound);
      }
      if !units[move.target].status.Active? {
        return Some(UnitUnavailable);
      }
      if move.tenant !in assignments {
        return Some(AssignmentNotFound);
      }
      if assignments[move.tenant].unit != move.source {
        return Some(MoveConflict);
      }
      if move.tenant in moves {
        return Some(MoveAlreadyExists);
      }
      moves := moves[move.tenant := move];
      return None;
    }

    method DeleteMove(tenant: TenantId) returns (error: Option<Error>)
      modifies this
      ensures error == Problem(old(Value()), Op.DeleteMove(tenant)) &&
        Value() == Perform(old(Value()), Op.DeleteMove(tenant))
    {
      if tenant == "" {
        return Some(InvalidMove);
      }
      if tenant !in moves {
        return Some(MoveNotFound);
      }
      moves := moves - {tenant};
      return None;
    }

    method DeleteMoveIfMatch(move: Move) returns (error: Option<Error>)
      modifies this
      ensures error == Problem(old(Value()), Op.DeleteMoveIfMatch(move)) &&
        Value() == Perform(old(Value()), Op.DeleteMoveIfMatch(move))
    {
      if !ValidMove(move) {
        return Some(InvalidMove);
      }
      if move.tenant !in moves {
        return Some(MoveNotFound);
      }
      if moves[move.tenant] != move {
        return Some(MoveConflict);
      }
      moves := moves - {move.tenant};
      return None;
    }
  }

  // ----- what every operation keeps -----

  predicate IsActive(s: Placement, id: UnitId) { id in s.units && s.units[id].status.Active? }

  /** Every unit named by an assignment or by either end of a prepared move exists and is active. */
  ghost predicate Placed(s: Placement) {
    (forall t :: t in s.assignments ==> IsActive(s, s.assignments[t].unit)) &&
    (forall t :: t in s.moves ==> IsActive(s, s.moves[t].source) && IsActive(s, s.moves[t].target))
  }

  lemma PerformKeepsPlaced(s: Placement, op: Op)
    requires Placed(s)
    ensures Placed(Perform(s, op))
  {
    hide ValidUnit, ValidAssignment, ValidMove;
  }

  function RunStore(s: Placement, ops: seq<Op>): Placement
    decreases |ops|
  {
    if ops == [] then s else RunStore(Perform(s, ops[0]), ops[1..])
  }

  /** In every run of store operations, swaps of assignments included, placements name active units only. */
  lemma {:induction false} RunKeepsPlaced(s: Placement, ops: seq<Op>)
    requires Placed(s)
    ensures Placed(RunStore(s, ops))
    decreases |ops|
  {
    hide Perform, Placed;
    if ops != [] {
      PerformKeepsPlaced(s, ops[0]);
      RunKeepsPlaced(Perform(s, ops[0]), ops[1..]);
    }
  }

  /** A unit that stays in the store throughout a run is never activated again. */
  lemma {:induction false} DisabledStaysDisabled(s: Placement, ops: seq<Op>, id: UnitId)
    requires forall n: nat :: n <= |ops| ==> id in RunStore(s, ops[..n]).units
    requires id in s.units && s.units[id].status.Disabled?
    ensures id in RunStore(s, ops).units && RunStore(s, ops).units[id].status.Disabled?
    decreases |ops|
  {
    if ops != [] {
      var next := Perform(s, ops[0]);
      assert ops[..1] == [ops[0]] && ops[..1][1..] == [];
      assert RunStore(s, ops[..1]) == next;
      StepKeepsDisabled(s, ops[0], id);
      hide Perform;
      forall n: nat | n <= |ops[1..]|
        ensures id in RunStore(next, ops[1..][..n]).units
      {
        assert ops[..n + 1][1..] == ops[1..][..n];
        assert ops[..n + 1][0] == ops[0];
        assert id in RunStore(s, ops[..n + 1]).units;
      }
      DisabledStaysDisabled(next, ops[1..], id);
    }
  }

  lemma StepKeepsDisabled(s: Placement, op: Op, id: UnitId)
    requires id in s.units && s.units[id].status.Disabled? && id in Perform(s, op).units
    ensures Perform(s, op).units[id].status.Disabled?
  {
    hide ValidAssignment, ValidMove, IsReferenced;
  }
}
