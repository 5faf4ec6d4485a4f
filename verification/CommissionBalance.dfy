/** Settlement batches hold what they claim, and their amounts balance with the earnings. */
module CommissionBalance {
  import opened Prelude
  import opened Sorting
  import opened Sums
  import opened CommissionFormula
  import opened CommissionLedger
  import opened CommissionRuns

  /** The state of the batch an earning of this status must be in. */
  function Role(status: EarningStatus): Option<SettlementStatus> {
    if status.Settling? then Some(Submitted)
    else if status.Settled? || status.RecoveryDue? then Some(PaidOut)
    else None
  }

  ghost predicate IsSound(m: map<EarningID, Earning>, s: Settlement) {
    s.earnings != [] && Distinct(s.earnings) && s.tenant != "" && s.id != "" && s.version >= 1 &&
    (forall id :: id in s.earnings ==> id in m && InAccount(m[id], s)) &&
    SumOfStored(m, s.earnings) == s.amount.minor as int &&
    (!s.status.Rejected? ==> forall id :: id in s.earnings ==> Role(m[id].status) == Some(s.status))
  }

  ghost predicate BatchesSound(l: Ledger) { forall k :: k in l.settlements ==> IsSound(l.earnings, l.settlements[k]) }

  /** The earning is in the batch, and the batch was not rejected. */
  ghost predicate IsIn(l: Ledger, id: EarningID, k: SettlementKey) {
    k in l.settlements && !l.settlements[k].status.Rejected? && id in l.settlements[k].earnings
  }

  ghost predicate HeldOnce(l: Ledger) { forall a, b, id :: IsIn(l, id, a) && IsIn(l, id, b) ==> a == b }

  ghost predicate RolesHeld(l: Ledger) {
    forall id :: id in l.earnings && Role(l.earnings[id].status).Some? ==> exists k :: IsIn(l, id, k)
  }

  /**
   Every batch lists distinct earnings of its own account that add up to its amount; those of a submitted batch are
   settling, those of a settled one settled or due for recovery; each such earning is in exactly one of these batches.
   */
  ghost predicate IsBalanced(l: Ledger) { BatchesSound(l) && HeldOnce(l) && RolesHeld(l) }

  // ----- what keeps it -----

  /** Nothing but status and version differs. */
  predicate SameCore(a: Earning, b: Earning) { b.(status := a.status, version := a.version) == a }

  lemma {:induction false} SumSame(m: map<EarningID, Earning>, m': map<EarningID, Earning>, ids: seq<EarningID>)
    requires forall id :: id in ids ==> id in m && id in m' && m'[id].amount == m[id].amount
    ensures SumOfStored(m, ids) == SumOfStored(m', ids)
  {
    if ids != [] {
      SumSame(m, m', ids[1..]);
    }
  }

  lemma StaysSound(m: map<EarningID, Earning>, m': map<EarningID, Earning>, s: Settlement, s': Settlement)
    requires IsSound(m, s)
    requires s' == s.(status := s'.status, reference := s'.reference, version := s'.version) && s'.version >= 1
    requires forall id :: id in s.earnings ==> id in m' && SameCore(m[id], m'[id])
    requires !s'.status.Rejected? ==> forall id :: id in s.earnings ==> Role(m'[id].status) == Some(s'.status)
    ensures IsSound(m', s')
  {
    hide SumOfStored, Distinct;
    SumSame(m, m', s.earnings);
  }

  /** Operations that leave every earning in its role, and add only earnings without one. */
  lemma SameRoles(l: Ledger, l': Ledger)
    requires IsBalanced(l) && l'.settlements == l.settlements
    requires forall id :: id in l.earnings ==>
      id in l'.earnings && SameCore(l.earnings[id], l'.earnings[id]) &&
        Role(l'.earnings[id].status) == Role(l.earnings[id].status)
    requires forall id :: id in l'.earnings && id !in l.earnings ==> Role(l'.earnings[id].status).None?
    ensures IsBalanced(l')
  {
    hide IsSound, SameCore, Role;
    forall k | k in l'.settlements
      ensures IsSound(l'.earnings, l'.settlements[k])
    {
      var s := l.settlements[k];
      assert IsSound(l.earnings, s);
      SoundRoles(l.earnings, s);
      StaysSound(l.earnings, l'.earnings, s, s);
    }
    assert forall k, id :: IsIn(l', id, k) <==> IsIn(l, id, k);
  }

  lemma SoundRoles(m: map<EarningID, Earning>, s: Settlement)
    requires IsSound(m, s)
    ensures s.version >= 1 && forall id :: id in s.earnings ==>
      id in m && (!s.status.Rejected? ==> Role(m[id].status) == Some(s.status))
  {
  }

  lemma MoveKeepsCores(m: map<EarningID, Earning>, ids: set<EarningID>, action: Action, m': map<EarningID, Earning>)
    requires EarningsMove(m, ids, action, m')
    ensures forall id :: id in m ==> id in m' && SameCore(m[id], m'[id])
  {
    hide Transition;
  }

  /** Holding, releasing, reversing and making available keep the roles. */
  lemma MoveKeepsRoles(l: Ledger, ids: set<EarningID>, action: Action, l': Ledger)
    requires IsBalanced(l) && EarningsMove(l.earnings, ids, action, l'.earnings) && l'.settlements == l.settlements
    requires IsManual(action) || action.MakeAvailable?
    ensures IsBalanced(l')
  {
    MoveKeepsCores(l.earnings, ids, action, l'.earnings);
    hide IsBalanced, SameCore, Role, CanChange, Changed;
    forall id | id in l.earnings
      ensures Role(l'.earnings[id].status) == Role(l.earnings[id].status)
    {
      if id in ids {
        RoleKept(l.earnings[id], action);
      }
    }
    assert l'.earnings.Keys == l.earnings.Keys;
    hide EarningsMove;
    SameRoles(l, l');
  }

  lemma RoleKept(e: Earning, action: Action)
    requires CanChange(e, action) && (IsManual(action) || action.MakeAvailable?)
    ensures Role(Changed(e, action).status) == Role(e.status)
  {
  }

  lemma StartKeepsBalanced(l: Ledger, s: Settlement, l': Ledger)
    requires IsBalanced(l) && SettlementsKeyed(l) && Claims(l, s, l')
    ensures IsBalanced(l')
  {
    var ids, key := IDSet(s.earnings), KeyOfSettlement(s);
    MoveKeepsCores(l.earnings, ids, StartSettling, l'.earnings);
    ClaimRoles(l, s, l');
    assert IsSound(l'.earnings, s) by {
      SumSame(l.earnings, l'.earnings, s.earnings);
      hide SumOfStored, Distinct, EarningsMove;
    }
    assert l'.settlements == l.settlements[key := s] && key !in l.settlements;
    hide Claims, IsSound, EarningsMove, SameCore, IDSet, Role;
    forall k | k in l.settlements
      ensures IsSound(l'.earnings, l.settlements[k])
    {
      SoundRoles(l.earnings, l.settlements[k]);
      ClaimedApart(l, k, s);
      StaysSound(l.earnings, l'.earnings, l.settlements[k], l.settlements[k]);
    }
    ClaimHeldOnce(l, s, l');
  }

  /** Claimed earnings had no role before. */
  lemma ClaimRoles(l: Ledger, s: Settlement, l': Ledger)
    requires Claims(l, s, l')
    ensures forall id :: id in l.earnings ==> id in l'.earnings
    ensures forall id :: id in s.earnings ==>
      id in l.earnings && Role(l.earnings[id].status).None? && Role(l'.earnings[id].status) == Some(Submitted)
    ensures forall id :: id in l.earnings && id !in s.earnings ==>
      Role(l'.earnings[id].status) == Role(l.earnings[id].status)
    ensures l'.earnings.Keys == l.earnings.Keys
  {
    hide SumOfStored, Distinct;
    forall id | id in s.earnings
      ensures id in l.earnings && Role(l.earnings[id].status).None? && Role(l'.earnings[id].status) == Some(Submitted)
    {
      assert id in IDSet(s.earnings);
      assert l'.earnings[id] == Changed(l.earnings[id], StartSettling);
    }
  }

  lemma ClaimedApart(l: Ledger, k: SettlementKey, s: Settlement)
    requires k in l.settlements && IsSound(l.earnings, l.settlements[k])
    requires forall id :: id in s.earnings ==> id in l.earnings && Role(l.earnings[id].status).None?
    ensures !l.settlements[k].status.Rejected? ==> forall id :: id in l.settlements[k].earnings ==> id !in s.earnings
  {
    hide SumOfStored, Role;
  }

  lemma ClaimHeldOnce(l: Ledger, s: Settlement, l': Ledger)
    requires IsBalanced(l) && KeyOfSettlement(s) !in l.settlements &&
      l'.settlements == l.settlements[KeyOfSettlement(s) := s]
    requires s.status.Submitted? && l'.earnings.Keys == l.earnings.Keys
    requires forall id :: id in s.earnings ==> id in l.earnings && Role(l.earnings[id].status).None?
    requires forall id :: id in l.earnings && id !in s.earnings ==>
      Role(l'.earnings[id].status) == Role(l.earnings[id].status)
    ensures HeldOnce(l') && RolesHeld(l')
  {
    hide IsSound, Role;
    var key := KeyOfSettlement(s);
    forall k, id | IsIn(l, id, k)
      ensures id !in s.earnings && IsIn(l', id, k) && k != key
    {
      ClaimedApart(l, k, s);
    }
    assert forall k, id :: IsIn(l', id, k) ==> if k == key then id in s.earnings else IsIn(l, id, k);
    forall id | id in l'.earnings && Role(l'.earnings[id].status).Some?
      ensures exists k :: IsIn(l', id, k)
    {
      if id in s.earnings {
        assert IsIn(l', id, key);
      } else {
        var k :| IsIn(l, id, k);
        assert IsIn(l', id, k);
      }
    }
  }

  lemma FinishKeepsBalanced(l: Ledger, key: SettlementKey, settled: bool, reference: string, l': Ledger)
    requires IsBalanced(l) && Resolves(l, key, settled, reference, l')
    ensures IsBalanced(l')
  {
    var s := l.settlements[key];
    var done := Completed(s, settled, reference);
    MoveKeepsCores(l.earnings, IDSet(s.earnings), OutcomeAction(settled), l'.earnings);
    ResolvedRoles(l, key, settled, reference, l');
    hide Resolves, IsSound, EarningsMove, SameCore, IDSet, Role;
    forall k | k in l'.settlements
      ensures IsSound(l'.earnings, l'.settlements[k])
    {
      assert IsSound(l.earnings, l.settlements[k]);
      SoundRoles(l.earnings, l.settlements[k]);
      if k != key {
        assert !l.settlements[k].status.Rejected? ==> forall id :: id in l.settlements[k].earnings ==>
          IsIn(l, id, k) && (id in s.earnings ==> IsIn(l, id, key));
      }
      StaysSound(l.earnings, l'.earnings, l.settlements[k], l'.settlements[k]);
    }
    ResolvedHeld(l, key, done, l');
  }

  lemma ResolvedHeld(l: Ledger, key: SettlementKey, done: Settlement, l': Ledger)
    requires HeldOnce(l) && RolesHeld(l) && key in l.settlements && l.settlements[key].status.Submitted?
    requires done.earnings == l.settlements[key].earnings && l'.settlements == l.settlements[key := done] &&
      l'.earnings.Keys == l.earnings.Keys
    requires forall id :: id in done.earnings ==>
      id in l.earnings && (Role(l'.earnings[id].status).Some? ==> !done.status.Rejected?)
    requires forall id :: id in l.earnings && id !in done.earnings ==>
      Role(l'.earnings[id].status) == Role(l.earnings[id].status)
    ensures HeldOnce(l') && RolesHeld(l')
  {
    hide Role;
    assert forall k, id :: IsIn(l', id, k) ==> IsIn(l, id, k);
    forall id | id in l'.earnings && Role(l'.earnings[id].status).Some?
      ensures exists k :: IsIn(l', id, k)
    {
      if id in done.earnings {
        assert IsIn(l', id, key);
      } else {
        var k :| IsIn(l, id, k);
        assert IsIn(l', id, k);
      }
    }
  }

  lemma ResolvedRoles(l: Ledger, key: SettlementKey, settled: bool, reference: string, l': Ledger)
    requires Resolves(l, key, settled, reference, l') && BatchesSound(l)
    ensures var s := l.settlements[key];
      l'.earnings.Keys == l.earnings.Keys && s.status.Submitted? &&
        l'.settlements == l.settlements[key := Completed(s, settled, reference)] &&
      (forall id :: id in s.earnings ==>
        id in l.earnings && Role(l'.earnings[id].status) == if settled then Some(PaidOut) else None) &&
      (forall id :: id in l.earnings && id !in s.earnings ==>
        Role(l'.earnings[id].status) == Role(l.earnings[id].status))
  {
    var s := l.settlements[key];
    hide SumOfStored, Distinct;
    assert IsSound(l.earnings, s);
    forall id | id in s.earnings
      ensures id in l.earnings && Role(l'.earnings[id].status) == if settled then Some(PaidOut) else None
    {
      assert id in IDSet(s.earnings);
      assert l'.earnings[id] == Changed(l.earnings[id], OutcomeAction(settled));
    }
  }

  lemma CommitKeepsBalanced(l: Ledger, c: Commit, l': Ledger)
    requires IsBalanced(l) && EarningsAdded(l, c, l'.earnings) && l'.settlements == l.settlements
    ensures IsBalanced(l')
  {
    hide IsRecordOf, IsBalanced, IDs;
    forall id | id in l'.earnings && id !in l.earnings
      ensures Role(l'.earnings[id].status).None?
    {
      assert IsNewEarning(l, c, l'.earnings[id], id);
    }
    SameRoles(l, l');
  }

  lemma StepIsBalanced(l: Ledger, op: Op, digest: EarningID -> int, l': Ledger)
    requires IsIndexed(l) && IsBalanced(l) && IsDigest(digest) && Steps(l, op, digest, l')
    ensures IsBalanced(l')
  {
    hide IsBalanced, Commits, Moves, Starts, Finishes, Problem, IsDigest, IsIndexed, IsDueList, AllCanChange,
      EarningsMove, Claims, Resolves,
      EarningsAdded, CommitOf;
    if l' == l {
    } else if op.CommitEvent? {
      CommitIsBalanced(l, op, l');
    } else if op.ChangeEarning? {
      MoveIsBalanced(l, [l.earnings[op.id]], op.action, l');
    } else if op.ReleaseDue? {
      MoveIsBalanced(l, Front(op.due, op.limit), MakeAvailable, l');
    } else if op.StartBatch? {
      StartIsBalanced(l, op, digest, l');
    } else if op.FinishBatch? {
      FinishIsBalanced(l, op, l');
    } else {
      assert l'.earnings == l.earnings && l'.settlements == l.settlements;
      SameRoles(l, l');
    }
  }

  lemma CommitIsBalanced(l: Ledger, op: Op, l': Ledger)
    requires IsBalanced(l) && Commits(l, op, l') && l' != l
    ensures IsBalanced(l')
  {
    hide FormProblem, Put, IsBalanced, VersionsProblem, CommitCollides, EarningsAdded;
    CommitAddsEarnings(l, op, l');
    CommitKeepsBalanced(l, CommitOf(op), l');
  }

  lemma StartIsBalanced(l: Ledger, op: Op, digest: EarningID -> int, l': Ledger)
    requires IsIndexed(l) && IsBalanced(l) && IsDigest(digest) && op.StartBatch? && Starts(l, op, digest, l')
    ensures IsBalanced(l')
  {
    hide IsKeyed, SettlementsKeyed, IsBalanced, Starts, Claims, JournalIDsBounded, OutboxBounded;
    StartClaims(l, op, digest, l');
    StartKeepsBalanced(l, op.batch, l');
  }

  lemma FinishIsBalanced(l: Ledger, op: Op, l': Ledger)
    requires IsIndexed(l) && IsBalanced(l) && Finishes(l, op, l') && l' != l
    ensures IsBalanced(l')
  {
    hide IsIndexed, IsBalanced, FinishProblem, Resolves, Moves;
    var changed := FinishResolves(l, op, l');
    FinishKeepsBalanced(l, op.key, op.settled, op.reference, l');
  }

  lemma MoveIsBalanced(l: Ledger, earnings: seq<Earning>, action: Action, l': Ledger)
    requires IsBalanced(l) && Moves(l, earnings, action, l') && (IsManual(action) || action.MakeAvailable?)
    ensures IsBalanced(l')
  {
    MovesApart(l, earnings, action, l');
    hide IsBalanced, Moves, EarningsMove, EntriesFrom;
    MoveKeepsRoles(l, IDs(earnings), action, l');
  }

  // ----- the balance -----

  /** Who is paid, in which currency, by which tenant. */
  datatype Account = Account(tenant: string, beneficiary: Beneficiary, currency: string)

  function AccountOf(s: Settlement): Account { Account(s.tenant, s.beneficiary, s.amount.currency) }

  function EarningAccount(e: Earning): Account { Account(e.tenant, e.beneficiary, e.amount.currency) }

  /** The amounts of the account's batches in a state. */
  function BatchAmounts(l: Ledger, account: Account, status: SettlementStatus): map<SettlementKey, int> {
    map k | k in l.settlements && l.settlements[k].status == status && AccountOf(l.settlements[k]) == account ::
      l.settlements[k].amount.minor as int
  }

  /** The amounts of the account's earnings in a role. */
  function RoleAmounts(l: Ledger, account: Account, status: SettlementStatus): map<EarningID, int> {
    map id | id in l.earnings && Role(l.earnings[id].status) == Some(status) &&
      EarningAccount(l.earnings[id]) == account ::
      l.earnings[id].amount.minor as int
  }

  /** The earnings of some batches. */
  ghost function InBatches(l: Ledger, keys: set<SettlementKey>): map<EarningID, int> {
    map id | id in l.earnings && exists k :: k in keys && IsIn(l, id, k) :: l.earnings[id].amount.minor as int
  }

  lemma FirstOfSet(ids: seq<EarningID>)
    requires Distinct(ids) && ids != []
    ensures ids[0] !in IDSet(ids[1..]) && IDSet(ids) == {ids[0]} + IDSet(ids[1..]) && Distinct(ids[1..])
    ensures forall id :: id in ids <==> id in IDSet(ids)
  {
    assert ids == [ids[0]] + ids[1..];
  }

  lemma {:induction false} SumOfBatch(m: map<EarningID, Earning>, ids: seq<EarningID>)
    requires Distinct(ids) && forall id :: id in ids ==> id in m
    ensures Sum(map id | id in IDSet(ids) :: m[id].amount.minor as int) == SumOfStored(m, ids)
  {
    var amounts := map id | id in IDSet(ids) :: m[id].amount.minor as int;
    if ids == [] {
      assert amounts == map[];
    } else {
      FirstOfSet(ids);
      SumOfBatch(m, ids[1..]);
      hide IDSet, Distinct;
      SumRemove(amounts, ids[0]);
      assert amounts - {ids[0]} == map id | id in IDSet(ids[1..]) :: m[id].amount.minor as int;
    }
  }

  lemma {:induction false} BatchesSum(l: Ledger, keys: set<SettlementKey>)
    requires IsBalanced(l) && forall k :: k in keys ==> k in l.settlements && !l.settlements[k].status.Rejected?
    ensures Sum(map k | k in keys :: l.settlements[k].amount.minor as int) == Sum(InBatches(l, keys))
    decreases |keys|
  {
    var amounts := map k | k in keys :: l.settlements[k].amount.minor as int;
    if keys == {} {
      assert amounts == map[] && InBatches(l, keys) == map[];
    } else {
      var k :| k in keys;
      BatchesSum(l, keys - {k});
      SumRemove(amounts, k);
      assert amounts - {k} == map i | i in keys - {k} :: l.settlements[i].amount.minor as int;
      BatchesWithout(l, keys, k);
    }
  }

  lemma BatchesWithout(l: Ledger, keys: set<SettlementKey>, k: SettlementKey)
    requires IsBalanced(l) && k in keys && forall k :: k in keys ==>
      k in l.settlements && !l.settlements[k].status.Rejected?
    ensures Sum(InBatches(l, keys)) == l.settlements[k].amount.minor as int + Sum(InBatches(l, keys - {k}))
  {
    BatchFacts(l, k);
    WithoutBatch(l, keys, k);
    InBatchesKeys(l, keys, k);
    hide IsBalanced, IsIn, InBatches, IDSet, Distinct, SumOfStored;
    SplitOff(InBatches(l, keys), l.earnings, l.settlements[k].earnings);
  }

  lemma InBatchesKeys(l: Ledger, keys: set<SettlementKey>, k: SettlementKey)
    requires k in keys && k in l.settlements && forall id :: id in IDSet(l.settlements[k].earnings) ==>
      id in l.earnings && IsIn(l, id, k)
    ensures forall id :: id in l.settlements[k].earnings ==>
      id in l.earnings && id in InBatches(l, keys) && InBatches(l, keys)[id] == l.earnings[id].amount.minor as int
  {
    hide IsIn;
    assert forall id :: id in l.settlements[k].earnings ==> id in IDSet(l.settlements[k].earnings);
  }

  lemma SplitOff(all: map<EarningID, int>, m: map<EarningID, Earning>, ids: seq<EarningID>)
    requires Distinct(ids) && forall id :: id in ids ==> id in m && id in all && all[id] == m[id].amount.minor as int
    ensures Sum(all) == SumOfStored(m, ids) + Sum(all - IDSet(ids))
  {
    SumSplit(all, IDSet(ids));
    SumOfBatch(m, ids);
    assert (map id | id in IDSet(ids) :: all[id]) == map id | id in IDSet(ids) :: m[id].amount.minor as int;
  }

  lemma WithoutBatch(l: Ledger, keys: set<SettlementKey>, k: SettlementKey)
    requires IsBalanced(l) && k in keys && k in l.settlements && !l.settlements[k].status.Rejected?
    ensures InBatches(l, keys) - IDSet(l.settlements[k].earnings) == InBatches(l, keys - {k})
  {
    hide IsBalanced, IsIn, IDSet;
    forall id | id in l.earnings
      ensures id in InBatches(l, keys) && id !in IDSet(l.settlements[k].earnings) <==> id in InBatches(l, keys - {k})
    {
      InOtherBatch(l, keys, k, id);
    }
  }

  lemma BatchFacts(l: Ledger, k: SettlementKey)
    requires BatchesSound(l) && k in l.settlements && !l.settlements[k].status.Rejected?
    ensures var s := l.settlements[k];
      Distinct(s.earnings) && (forall id :: id in IDSet(s.earnings) ==> id in l.earnings && IsIn(l, id, k)) &&
      (forall id :: id in s.earnings ==> id in l.earnings) &&
        SumOfStored(l.earnings, s.earnings) == s.amount.minor as int
  {
    hide Distinct, SumOfStored;
    assert IsSound(l.earnings, l.settlements[k]);
  }

  lemma InOtherBatch(l: Ledger, keys: set<SettlementKey>, k: SettlementKey, id: EarningID)
    requires IsBalanced(l) && k in keys && k in l.settlements && !l.settlements[k].status.Rejected?
    ensures (exists i :: i in keys && IsIn(l, id, i)) && id !in IDSet(l.settlements[k].earnings) <==>
      exists i :: i in keys - {k} && IsIn(l, id, i)
  {
    hide IsSound;
    assert id in IDSet(l.settlements[k].earnings) <==> IsIn(l, id, k);
  }

  /**
   For every account the submitted batches add up to its settling earnings, and the settled batches to its
   settled earnings and those due for recovery.
   */
  lemma BooksBalance(l: Ledger, account: Account, status: SettlementStatus)
    requires IsBalanced(l) && !status.Rejected?
    ensures Sum(BatchAmounts(l, account, status)) == Sum(RoleAmounts(l, account, status))
  {
    var keys := BatchAmounts(l, account, status).Keys;
    BatchesSum(l, keys);
    hide IsBalanced, IsIn, Role;
    assert BatchAmounts(l, account, status) == map k | k in keys :: l.settlements[k].amount.minor as int;
    assert InBatches(l, keys) == RoleAmounts(l, account, status) by { RolesAreInBatches(l, account, status); }
  }

  lemma RolesAreInBatches(l: Ledger, account: Account, status: SettlementStatus)
    requires IsBalanced(l) && !status.Rejected?
    ensures InBatches(l, BatchAmounts(l, account, status).Keys) == RoleAmounts(l, account, status)
  {
    hide IsBalanced, IsIn, Role;
    forall id | id in l.earnings
      ensures id in InBatches(l, BatchAmounts(l, account, status).Keys) <==> id in RoleAmounts(l, account, status)
    {
      RoleTellsBatch(l, id, account, status);
    }
  }

  lemma RoleTellsBatch(l: Ledger, id: EarningID, account: Account, status: SettlementStatus)
    requires IsBalanced(l) && !status.Rejected? && id in l.earnings
    ensures (exists k :: k in BatchAmounts(l, account, status) && IsIn(l, id, k)) <==>
      Role(l.earnings[id].status) == Some(status) && EarningAccount(l.earnings[id]) == account
  {
    hide SumOfStored, Distinct, Role;
    if k :| k in BatchAmounts(l, account, status) && IsIn(l, id, k) {
      assert IsSound(l.earnings, l.settlements[k]);
    }
    if Role(l.earnings[id].status) == Some(status) && EarningAccount(l.earnings[id]) == account {
      var k :| IsIn(l, id, k);
      assert IsSound(l.earnings, l.settlements[k]);
      assert k in BatchAmounts(l, account, status);
    }
  }

  /** A submitted batch can be finished at its version, whatever the outcome. */
  lemma SubmittedCanFinish(l: Ledger, key: SettlementKey, settled: bool, reference: string, now: int)
    requires IsIndexed(l) && IsBalanced(l) && key in l.settlements && l.settlements[key].status.Submitted? && now != 0
    ensures FinishProblem(l, key, l.settlements[key].version, settled, reference, now).None?
  {
    var s := l.settlements[key];
    SubmittedIsSettling(l, key);
    StoredAreStored(l, s.earnings);
    hide IsBalanced, IsKeyed, AreStored, AllSettling, Distinct;
    MoveNeverCollides(l, StoredEarnings(l, s.earnings), OutcomeAction(settled));
    hide ChangeCollides, JournalIDsBounded;
    var notice := KeyOf(SettlementNotice(Completed(s, settled, reference)));
    assert notice in l.outbox ==> IsBounded(l, notice);
  }

  lemma SubmittedIsSettling(l: Ledger, key: SettlementKey)
    requires SettlementsKeyed(l) && BatchesSound(l) && key in l.settlements && l.settlements[key].status.Submitted?
    ensures var s := l.settlements[key];
      AllSettling(l, s, key.tenant) && AllStored(l, s.earnings) && Distinct(s.earnings) &&
        KeyOfSettlement(s) == key && s.tenant != "" && s.id != "" &&
      AllCanChange(StoredEarnings(l, s.earnings), Settle) && AllCanChange(StoredEarnings(l, s.earnings), RejectSettling)
  {
    var s := l.settlements[key];
    hide SumOfStored, Distinct;
    assert IsSound(l.earnings, s) && KeyOfSettlement(s) == key;
    forall i | 0 <= i < |s.earnings|
      ensures IsSettling(l, key.tenant, s.earnings[i])
    {
      assert s.earnings[i] in s.earnings;
    }
  }
}
