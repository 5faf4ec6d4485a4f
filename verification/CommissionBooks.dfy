/** The books of the commission store: what holds of its ledger after any run. */
module CommissionBooks {
  import opened Prelude
  import opened Sorting
  import opened CommissionFormula
  import opened CommissionCap
  import opened CommissionLedger
  import opened CommissionRuns
  import opened CommissionBalance
  import opened CommissionHistory

  ghost predicate Books(l: Ledger) {
    IsIndexed(l) && IsBalanced(l) && EventsRecorded(l) && JournalsTell(l) && JournalsMatch(l)
  }

  /** The parts of the books that StepIsIndexed and StepIsBalanced do not cover. */
  ghost predicate IsTold(l: Ledger) { EventsRecorded(l) && JournalsTell(l) && JournalsMatch(l) }

  lemma EmptyBooks()
    ensures Books(EmptyLedger())
  {
  }

  lemma MoveKeepsTold(l: Ledger, earnings: seq<Earning>, action: Action, l': Ledger)
    requires IsTold(l) && Moves(l, earnings, action, l') && !action.StartSettling?
    ensures IsTold(l')
  {
    hide EventsRecorded, JournalsTell, JournalsMatch, Moves;
    MovesApart(l, earnings, action, l');
    assert l'.earnings.Keys == l.earnings.Keys;
    hide EarningsMove, EntriesFrom;
    SameEvents(l, l');
    MoveKeepsTelling(l, earnings, action, l');
    MoveKeepsMatching(l, earnings, action, l');
  }

  lemma CommitKeepsTold(l: Ledger, op: Op, l': Ledger)
    requires IsTold(l) && op.CommitEvent? && Commits(l, op, l')
    ensures IsTold(l')
  {
    hide EventsRecorded, JournalsTell, JournalsMatch, Commits, Adds, Distinct;
    if l' != l {
      CommitAdds(l, op, l');
      CommitKeepsRecorded(l, CommitOf(op), l');
      CommitKeepsTelling(l, CommitOf(op), l');
      CommitKeepsMatching(l, CommitOf(op), l');
    }
  }

  /** Statuses read the same in the journals, and cores are the same. */
  lemma SameReading(l: Ledger, l': Ledger)
    requires IsTold(l) && l'.events == l.events && l'.journals == l.journals && l'.earnings.Keys == l.earnings.Keys
    requires forall id :: id in l.earnings ==>
      Journaled(l'.earnings[id].status) == Journaled(l.earnings[id].status) && SameCore(l.earnings[id], l'.earnings[id])
    ensures IsTold(l')
  {
    hide Journaled, Replay;
    SameEvents(l, l');
  }

  lemma StartKeepsTold(l: Ledger, op: Op, digest: EarningID -> int, l': Ledger)
    requires IsTold(l) && IsKeyed(l) && IsDigest(digest) && op.StartBatch? && Starts(l, op, digest, l')
    ensures IsTold(l')
  {
    StartClaims(l, op, digest, l');
    MoveKeepsCores(l.earnings, IDSet(op.batch.earnings), StartSettling, l'.earnings);
    ClaimReads(l, op.batch, l');
    hide IsTold, Starts, Claims, SameCore, Journaled;
    SameReading(l, l');
  }

  lemma ClaimReads(l: Ledger, s: Settlement, l': Ledger)
    requires Claims(l, s, l')
    ensures l'.earnings.Keys == l.earnings.Keys
    ensures forall id :: id in l.earnings ==> Journaled(l'.earnings[id].status) == Journaled(l.earnings[id].status)
  {
    hide SumOfStored, Distinct;
  }

  lemma FinishKeepsTold(l: Ledger, op: Op, l': Ledger)
    requires IsTold(l) && IsIndexed(l) && Finishes(l, op, l')
    ensures IsTold(l')
  {
    hide IsTold, IsIndexed, FinishProblem, Moves, Resolves;
    if l.settlements[op.key].status.Submitted? {
      var changed := FinishResolves(l, op, l');
      MoveKeepsTold(l, StoredEarnings(l, l.settlements[op.key].earnings), OutcomeAction(op.settled), changed);
      SameEntries(changed, l');
    }
  }

  lemma SameEntries(l: Ledger, l': Ledger)
    requires IsTold(l) && l'.events == l.events && l'.journals == l.journals && l'.earnings == l.earnings
    ensures IsTold(l')
  {
    hide Replay, Journaled;
    SameEvents(l, l');
  }

  lemma StepKeepsTold(l: Ledger, op: Op, digest: EarningID -> int, l': Ledger)
    requires IsIndexed(l) && IsTold(l) && IsDigest(digest) && Steps(l, op, digest, l')
    ensures IsTold(l')
  {
    assert IsKeyed(l);
    hide IsTold, Commits, Moves, Starts, Finishes, Problem, IsDigest, IsIndexed, IsDueList, AllCanChange, IsKeyed;
    if l' == l {
    } else if op.CommitEvent? {
      CommitKeepsTold(l, op, l');
    } else if op.ChangeEarning? {
      MoveKeepsTold(l, [l.earnings[op.id]], op.action, l');
    } else if op.ReleaseDue? {
      MoveKeepsTold(l, Front(op.due, op.limit), MakeAvailable, l');
    } else if op.StartBatch? {
      StartKeepsTold(l, op, digest, l');
    } else if op.FinishBatch? {
      FinishKeepsTold(l, op, l');
    } else {
      SameEntries(l, l');
    }
  }

  lemma StepKeepsBooks(l: Ledger, op: Op, digest: EarningID -> int, l': Ledger)
    requires Books(l) && IsDigest(digest) && Steps(l, op, digest, l')
    ensures Books(l')
  {
    hide IsIndexed, IsBalanced, EventsRecorded, JournalsTell, JournalsMatch, Steps, IsDigest;
    assert IsIndexed(l) && IsBalanced(l) && IsTold(l);
    StepIsIndexed(l, op, digest, l');
    StepIsBalanced(l, op, digest, l');
    StepKeepsTold(l, op, digest, l');
  }

  lemma RunStarts(ledgers: seq<Ledger>, ops: seq<Op>, digest: EarningID -> int)
    requires IsRun(ledgers, ops, digest)
    ensures |ledgers| == |ops| + 1 && ledgers[0] == EmptyLedger()
  {
    hide Steps, IsDigest;
  }

  lemma RunStep(ledgers: seq<Ledger>, ops: seq<Op>, digest: EarningID -> int, n: nat)
    requires IsRun(ledgers, ops, digest) && n < |ops|
    ensures IsDigest(digest) && |ledgers| == |ops| + 1 && Steps(ledgers[n], ops[n], digest, ledgers[n + 1])
  {
    hide Steps, IsDigest;
  }

  /** The books are in order throughout any run of an empty store. */
  lemma {:induction false} RunKeepsBooks(ledgers: seq<Ledger>, ops: seq<Op>, digest: EarningID -> int, n: nat)
    requires IsRun(ledgers, ops, digest) && n <= |ops|
    ensures Books(ledgers[n])
  {
    hide *;
    RunStarts(ledgers, ops, digest);
    if n == 0 {
      EmptyBooks();
    } else {
      RunStep(ledgers, ops, digest, n - 1);
      RunKeepsBooks(ledgers, ops, digest, n - 1);
      StepKeepsBooks(ledgers[n - 1], ops[n - 1], digest, ledgers[n]);
    }
  }

  // ----- what the books say -----

  /**
   An earning's status is what its journal entries tell, except that it is settling exactly while a submitted batch
   holds it.
   */
  lemma JournalsTellStatus(l: Ledger, id: EarningID)
    requires Books(l) && id in l.earnings
    ensures var told := Replay(NoEntries, l.journals, id);
      told.Told? && !told.status.Settling? &&
      l.earnings[id].status ==
        if exists k :: IsIn(l, id, k) && l.settlements[k].status.Submitted? then Settling else told.status
  {
    hide Replay, SumOfStored, Distinct, IsRecordedEvent, JournalsMatch;
    if l.earnings[id].status.Settling? {
      var k :| IsIn(l, id, k);
      assert IsSound(l.earnings, l.settlements[k]);
    }
    if k :| IsIn(l, id, k) && l.settlements[k].status.Submitted? {
      assert IsSound(l.earnings, l.settlements[k]);
    }
  }

  /**
   A commit is refused only for its form, for another decision recorded for the same event, or for versions that
   have moved on; its identifiers never collide, and a repeated commit finds its earnings.
   */
  lemma CommitDecided(l: Ledger, op: Op)
    requires Books(l) && op.CommitEvent?
    ensures var c := CommitOf(op); var key := KeyOfEvent(c.event);
      CommitProblem(l, op.control, c) ==
        if FormProblem(c).Some? then FormProblem(c)
        else if key in l.events then
          if l.events[key].fingerprint == Fingerprint(c.event, c.program) then None else Some(EventConflict)
        else VersionsProblem(op.control, c)
  {
    var c := CommitOf(op);
    var key := KeyOfEvent(c.event);
    hide VersionsProblem, IsBalanced, JournalsTell, JournalsMatch;
    if FormProblem(c).None? && key !in l.events {
      FreshCommit(l, op);
    }
    hide FormProblem, CommitCollides, CommitOf, IsIndexed;
    if key in l.events {
      assert IsRecordedEvent(l.earnings, key, l.events[key]);
    }
  }

  lemma FreshCommit(l: Ledger, op: Op)
    requires IsIndexed(l) && EventsRecorded(l) && op.CommitEvent? && FormProblem(CommitOf(op)).None? &&
      KeyOfEvent(op.event) !in l.events
    ensures !CommitCollides(l, CommitOf(op))
  {
    var c := CommitOf(op);
    NewEarningsAreRecords(c, op);
    assert c.outbox == AllNewEvents(c.earnings) && c.journals == AllNewJournals(c.earnings) && c.event == op.event;
    hide CommitOf, FormProblem, IsRecordOf, AllNewJournals, IsRecordedEvent, Distinct, EarningKeys, IsIndexed,
      AllNewEvents, EventsRecorded;
    forall e | e in c.earnings
      ensures e.id !in l.earnings
    {
      var i :| 0 <= i < |c.earnings| && c.earnings[i] == e;
      UnrecordedIsNew(l, e.id, KeyOfEvent(c.event));
    }
    FreshEntries(l, c);
  }

  lemma UnrecordedIsNew(l: Ledger, id: EarningID, key: EventKey)
    requires EventsRecorded(l) && key !in l.events && KeyOfID(id) == key
    ensures id !in l.earnings
  {
    assert id in l.earnings ==> IsAccounted(l, id);
  }

  lemma FreshEntries(l: Ledger, c: Commit)
    requires IsIndexed(l) && c.outbox == AllNewEvents(c.earnings) && c.journals == AllNewJournals(c.earnings)
    requires forall e :: e in c.earnings ==> e.id !in l.earnings
    ensures !CommitCollides(l, c)
  {
    hide AllNewJournals, IsRecordOf;
    forall k | k in OutboxKeys(c.outbox)
      ensures k !in l.outbox
    {
      var i :| 0 <= i < |c.outbox| && OutboxKeys(c.outbox)[i] == k;
      assert c.earnings[i] in c.earnings && k.id.aggregate == EarningAggregate(c.earnings[i].id);
      assert k in l.outbox ==> IsBounded(l, k);
    }
    forall id | id in JournalKeys(c.journals)
      ensures id !in l.journalIDs
    {
      var i :| 0 <= i < |c.journals| && JournalKeys(c.journals)[i] == id;
      NewJournalsOf(c.earnings, c.journals[i]);
    }
  }

  /** No other operation ever reports a conflict of identifiers: nothing fails half way. */
  lemma OthersNeverConflict(l: Ledger, op: Op, digest: EarningID -> int)
    requires Books(l) && IsDigest(digest) && IsPossible(l, op, digest) && !op.CommitEvent?
    requires op.ReleaseDue? ==> AllCanChange(op.due, MakeAvailable)
    ensures Problem(l, op, digest) != Some(EventConflict)
  {
    hide EventsRecorded, JournalsTell, JournalsMatch, IsBalanced, ClaimProblem, Sort;
    if op.ChangeEarning? {
      OneNeverCollides(l, op);
    } else if op.ReleaseDue? {
      DueNeverCollides(l, op, digest);
    } else if op.StartBatch? {
      StartNeverConflicts(l, op, digest);
    } else if op.FinishBatch? {
      FinishNeverConflicts(l, op);
    }
  }

  lemma OneNeverCollides(l: Ledger, op: Op)
    requires IsIndexed(l) && op.ChangeEarning?
    ensures TransitionProblem(l, op.tenant, op.id, op.expected, op.action, op.now) != Some(EventConflict)
  {
    hide JournalIDsBounded, OutboxBounded, SettlementsKeyed, ChangeCollides;
    if op.id in l.earnings && CanChange(l.earnings[op.id], op.action) {
      assert IsRecordOf(l.earnings[op.id], op.id);
      MoveNeverCollides(l, [l.earnings[op.id]], op.action);
    }
  }

  lemma DueNeverCollides(l: Ledger, op: Op, digest: EarningID -> int)
    requires IsIndexed(l) && op.ReleaseDue? && IsDueList(l, op.now, digest, op.due) &&
      AllCanChange(op.due, MakeAvailable)
    ensures DueProblem(l, op.now, op.limit, op.due) != Some(EventConflict)
  {
    if op.limit > 0 {
      FrontIsStored(l, op.now, digest, op.due, op.limit);
      FrontCanChange(op.due, op.limit);
      hide JournalIDsBounded, OutboxBounded, SettlementsKeyed, ChangeCollides, IsKeyed, AreStored, AllCanChange,
        IsDueList;
      MoveNeverCollides(l, Front(op.due, op.limit), MakeAvailable);
    }
  }

  lemma FrontIsStored(l: Ledger, now: int, digest: EarningID -> int, due: seq<Earning>, limit: int)
    requires IsDueList(l, now, digest, due) && limit > 0
    ensures AreStored(l, Front(due, limit))
  {
    hide IsSorted, DueOrder;
    var front := Front(due, limit);
    forall i | 0 <= i < |front|
      ensures front[i].id in l.earnings && l.earnings[front[i].id] == front[i]
    {
      assert front[i] == due[i] && due[i] in due;
    }
    assert forall i, j :: 0 <= i < j < |front| ==> front[i] == due[i] && front[j] == due[j] && due[i] != due[j];
  }

  /** No event of a settlement is there before the settlement. */
  lemma StartNeverConflicts(l: Ledger, op: Op, digest: EarningID -> int)
    requires OutboxBounded(l) && op.StartBatch?
    ensures StartProblem(l, op.batch, op.versions, op.now, digest) != Some(EventConflict)
  {
    hide Sort, ValidSettlement;
    var notice := KeyOf(SettlementNotice(op.batch));
    assert notice in l.outbox ==> IsBounded(l, notice);
    ClaimsNeverConflict(l, op.batch, op.versions, Sort(op.batch.earnings, ByDigest(digest)), 0);
  }

  lemma {:induction false} ClaimsNeverConflict(l: Ledger, s: Settlement, versions: map<EarningID, int>,
          ids: seq<EarningID>, total: int)
    ensures ClaimProblem(l, s, versions, ids, total) != Some(EventConflict)
    decreases |ids|
  {
    if ids != [] && IsClaimable(l, s, versions, ids[0]) {
      ClaimsNeverConflict(l, s, versions, ids[1..], total + l.earnings[ids[0]].amount.minor as int);
    }
  }

  lemma FinishNeverConflicts(l: Ledger, op: Op)
    requires IsIndexed(l) && IsBalanced(l) && op.FinishBatch?
    ensures FinishProblem(l, op.key, op.expected, op.settled, op.reference, op.now) != Some(EventConflict)
  {
    if op.now != 0 && op.key in l.settlements && l.settlements[op.key].status.Submitted? {
      hide IsIndexed, IsBalanced, ChangeCollides, SettlementNotice;
      SubmittedCanFinish(l, op.key, op.settled, op.reference, op.now);
    }
  }

  // ----- the store's operations are the steps of a run -----

  /** What the store's methods ensure of the ledger after them. */
  ghost predicate IsOutcome(l: Ledger, op: Op, digest: EarningID -> int, l': Ledger)
    requires op.ReleaseDue? ==> AllCanChange(op.due, MakeAvailable)
  {
    if Problem(l, op, digest).Some? then l' == l
    else if op.CommitEvent? then l' == CommitEffect(l, CommitOf(op))
    else if op.ChangeEarning? then l' == ChangeEffect(l, [l.earnings[op.id]], op.action)
    else if op.ReleaseDue? then
      AllCanChange(Front(op.due, op.limit), MakeAvailable) &&
        l' == ChangeEffect(l, Front(op.due, op.limit), MakeAvailable)
    else if op.StartBatch? then
      AllStored(l, op.batch.earnings) && AllCanChange(StoredEarnings(l, op.batch.earnings), StartSettling) &&
        l' == StartEffect(l, op.batch)
    else if op.FinishBatch? then l' == FinishEffect(l, op.key, op.settled, op.reference)
    else l' == PublishEffect(l, op.published, op.now)
  }

  lemma OutcomesAreSteps(l: Ledger, op: Op, digest: EarningID -> int, l': Ledger)
    requires Books(l) && IsPossible(l, op, digest) && (op.ReleaseDue? ==> AllCanChange(op.due, MakeAvailable))
    requires IsOutcome(l, op, digest, l')
    ensures Steps(l, op, digest, l')
  {
    assert IsKeyed(l);
    hide Books, IsBalanced, IsIndexed, ChangeCollides, CommitCollides, FormProblem, VersionsProblem, ClaimProblem,
      Put, IsDueList, AreStored, IsRecordOf;
    if op.ChangeEarning? && Problem(l, op, digest).None? {
      OneIsStored(l, op.id);
    }
    if op.ReleaseDue? && op.limit > 0 {
      FrontIsStored(l, op.now, digest, op.due, op.limit);
    }
  }

  lemma OneIsStored(l: Ledger, id: EarningID)
    requires IsKeyed(l) && id in l.earnings
    ensures AreStored(l, [l.earnings[id]])
  {
    assert IsRecordOf(l.earnings[id], id);
  }

  // ----- nothing recorded is lost -----

  /** A batch keeps its earnings and amount, and once it has an outcome it does not change at all. */
  predicate BatchPersists(s: Settlement, s': Settlement) {
    s' == s.(status := s'.status, reference := s'.reference, version := s'.version) &&
      (!s.status.Submitted? ==> s' == s)
  }

  /** Journals only grow, recorded events stay, and earnings and batches keep everything but their status. */
  ghost predicate Persists(l: Ledger, l': Ledger) {
    l.journals <= l'.journals &&
      (forall key :: key in l.events ==> key in l'.events && l'.events[key] == l.events[key]) &&
    (forall id :: id in l.earnings ==> id in l'.earnings && SameCore(l.earnings[id], l'.earnings[id])) &&
    (forall k :: k in l.settlements ==> k in l'.settlements && BatchPersists(l.settlements[k], l'.settlements[k]))
  }

  lemma StepPersists(l: Ledger, op: Op, digest: EarningID -> int, l': Ledger)
    requires IsIndexed(l) && IsDigest(digest) && Steps(l, op, digest, l')
    ensures Persists(l, l')
  {
    assert IsKeyed(l);
    hide Commits, Moves, Starts, Finishes, Problem, IsDigest, IsIndexed, IsDueList, AllCanChange, IsKeyed, Persists;
    if l' == l {
      Persisting(l);
    } else if op.CommitEvent? {
      CommitPersists(l, op, l');
    } else if op.ChangeEarning? {
      MovePersists(l, [l.earnings[op.id]], op.action, l');
    } else if op.ReleaseDue? {
      MovePersists(l, Front(op.due, op.limit), MakeAvailable, l');
    } else if op.StartBatch? {
      StartPersists(l, op, digest, l');
    } else if op.FinishBatch? {
      FinishPersists(l, op, l');
    } else {
      Persisting(l);
      PersistsThrough(l, l, l');
    }
  }

  lemma Persisting(l: Ledger)
    ensures Persists(l, l)
  {
  }

  /** An outbox may change freely. */
  lemma PersistsThrough(l: Ledger, m: Ledger, l': Ledger)
    requires Persists(l, m) && l'.earnings == m.earnings && l'.journals == m.journals && l'.events == m.events &&
      l'.settlements == m.settlements
    ensures Persists(l, l')
  {
  }

  lemma CommitPersists(l: Ledger, op: Op, l': Ledger)
    requires op.CommitEvent? && Commits(l, op, l') && l' != l
    ensures Persists(l, l')
  {
    hide Commits, Distinct;
    CommitAdds(l, op, l');
    hide AllNewJournals, IsNewEarning;
  }

  lemma MovePersists(l: Ledger, earnings: seq<Earning>, action: Action, l': Ledger)
    requires Moves(l, earnings, action, l')
    ensures Persists(l, l')
  {
    hide Moves;
    MovesApart(l, earnings, action, l');
    MoveKeepsCores(l.earnings, IDs(earnings), action, l'.earnings);
    hide ChangeJournals, EntriesFrom, EarningsMove, SameCore;
  }

  lemma StartPersists(l: Ledger, op: Op, digest: EarningID -> int, l': Ledger)
    requires IsKeyed(l) && IsDigest(digest) && op.StartBatch? && Starts(l, op, digest, l')
    ensures Persists(l, l')
  {
    hide Starts, IsKeyed;
    StartClaims(l, op, digest, l');
    MoveKeepsCores(l.earnings, IDSet(op.batch.earnings), StartSettling, l'.earnings);
    hide EarningsMove, SameCore, SumOfStored, Distinct;
  }

  lemma FinishPersists(l: Ledger, op: Op, l': Ledger)
    requires IsIndexed(l) && Finishes(l, op, l') && l' != l
    ensures Persists(l, l')
  {
    hide IsIndexed, FinishProblem, Moves;
    var changed := FinishResolves(l, op, l');
    MovePersists(l, StoredEarnings(l, l.settlements[op.key].earnings), OutcomeAction(op.settled), changed);
    hide EarningsMove, SameCore;
  }

  lemma PersistsTransitive(a: Ledger, b: Ledger, c: Ledger)
    requires Persists(a, b) && Persists(b, c)
    ensures Persists(a, c)
  {
    forall id | id in a.earnings
      ensures id in c.earnings && SameCore(a.earnings[id], c.earnings[id])
    {
      assert SameCore(a.earnings[id], b.earnings[id]) && SameCore(b.earnings[id], c.earnings[id]);
    }
  }

  /** Over any stretch of a run the journals only grow, and no recorded event, earning or batch is lost or rewritten. */
  lemma {:induction false} RunPersists(ledgers: seq<Ledger>, ops: seq<Op>, digest: EarningID -> int, i: nat, j: nat)
    requires IsRun(ledgers, ops, digest) && i <= j <= |ops|
    ensures Persists(ledgers[i], ledgers[j])
    decreases j
  {
    hide *;
    RunStarts(ledgers, ops, digest);
    if i == j {
      Persisting(ledgers[j]);
    } else {
      RunStep(ledgers, ops, digest, j - 1);
      RunKeepsBooks(ledgers, ops, digest, j - 1);
      RunPersists(ledgers, ops, digest, i, j - 1);
      PersistsNext(ledgers[i], ledgers[j - 1], ops[j - 1], digest, ledgers[j]);
    }
  }

  lemma PersistsNext(a: Ledger, l: Ledger, op: Op, digest: EarningID -> int, l': Ledger)
    requires Persists(a, l) && Books(l) && IsDigest(digest) && Steps(l, op, digest, l')
    ensures Persists(a, l')
  {
    hide Persists, Steps, IsIndexed, IsBalanced, IsDigest, EventsRecorded, JournalsTell, JournalsMatch;
    StepPersists(l, op, digest, l');
    PersistsTransitive(a, l, l');
  }

  /** Any stored earning of an event is one of those recorded for it. */
  lemma EarningsOfEvent(l: Ledger, key: EventKey, id: EarningID)
    requires Books(l)
    ensures id in l.earnings && KeyOfID(id) == key <==> key in l.events && id in l.events[key].earnings
  {
    hide IsIndexed, IsBalanced, JournalsTell, JournalsMatch, Distinct;
    assert id in l.earnings ==> IsAccounted(l, id);
    assert key in l.events ==> IsRecordedEvent(l.earnings, key, l.events[key]);
  }

  /**
   An event committed in a run is paid only once: whenever the same facts are committed again for the same program,
   with whatever versions and calculations, the store changes nothing and returns the first commit's earnings, with
   the amounts and beneficiaries they had then; other facts or another program are a conflict.
   */
  lemma PaidOnce(ledgers: seq<Ledger>, ops: seq<Op>, digest: EarningID -> int, first: nat, again: nat)
    requires IsRun(ledgers, ops, digest) && first < again < |ops|
    requires ops[first].CommitEvent? && Problem(ledgers[first], ops[first], digest).None?
    requires ops[again].CommitEvent? && KeyOfEvent(ops[again].event) == KeyOfEvent(ops[first].event)
    ensures ledgers[again + 1] == ledgers[again]
    ensures Problem(ledgers[again], ops[again], digest) ==
      if FormProblem(CommitOf(ops[again])).Some? then FormProblem(CommitOf(ops[again]))
      else if ops[again].event == ops[first].event && ops[again].program.id == ops[first].program.id then None
        else Some(EventConflict)
    ensures var ids := CommitIDs(ledgers[first], CommitOf(ops[first]));
      CommitIDs(ledgers[again], CommitOf(ops[again])) == ids &&
      forall id :: id in ids ==>
        (id in ledgers[first + 1].earnings && id in ledgers[again].earnings &&
         SameCore(ledgers[first + 1].earnings[id], ledgers[again].earnings[id]))
  {
    var l, l', m := ledgers[first], ledgers[first + 1], ledgers[again];
    RunKeepsBooks(ledgers, ops, digest, first);
    RunKeepsBooks(ledgers, ops, digest, first + 1);
    RunKeepsBooks(ledgers, ops, digest, again);
    RunPersists(ledgers, ops, digest, first + 1, again);
    RunStep(ledgers, ops, digest, first);
    RunStep(ledgers, ops, digest, again);
    hide Books, Persists, IsRun;
    FirstRecorded(l, ops[first], digest, l');
    LaterFinds(l', m, ops[first], ops[again], digest, ledgers[again + 1]);
    RecordsPersist(l', m, KeyOfEvent(ops[first].event));
  }

  lemma FirstRecorded(l: Ledger, op: Op, digest: EarningID -> int, l': Ledger)
    requires Books(l) && op.CommitEvent? && Steps(l, op, digest, l') && Problem(l, op, digest).None?
    ensures var key := KeyOfEvent(op.event);
      key in l'.events && l'.events[key].fingerprint == Fingerprint(op.event, op.program.id) &&
      l'.events[key].earnings == CommitIDs(l, CommitOf(op))
  {
    var c := CommitOf(op);
    assert c.event == op.event && c.program == op.program.id;
    CommitDecided(l, op);
    assert l' == CommitEffect(l, c) && CommitProblem(l, op.control, c).None?;
    hide CommitOf, Books, FormProblem, VersionsProblem, Put, CommitCollides;
  }

  lemma RecordsPersist(l: Ledger, m: Ledger, key: EventKey)
    requires Books(l) && Persists(l, m) && key in l.events
    ensures key in m.events && m.events[key] == l.events[key]
    ensures forall id :: id in l.events[key].earnings ==>
      id in l.earnings && id in m.earnings && SameCore(l.earnings[id], m.earnings[id])
  {
    hide IsIndexed, IsBalanced, JournalsTell, JournalsMatch, Distinct, SameCore;
    assert IsRecordedEvent(l.earnings, key, l.events[key]);
  }

  lemma LaterFinds(l: Ledger, m: Ledger, first: Op, again: Op, digest: EarningID -> int, m': Ledger)
    requires Books(m) && Persists(l, m) && first.CommitEvent? && again.CommitEvent? && Steps(m, again, digest, m')
    requires var key := KeyOfEvent(first.event);
      key in l.events &&
      l.events[key].fingerprint == Fingerprint(first.event, first.program.id)
    requires KeyOfEvent(again.event) == KeyOfEvent(first.event)
    ensures m' == m && CommitIDs(m, CommitOf(again)) == l.events[KeyOfEvent(first.event)].earnings
    ensures Problem(m, again, digest) ==
      if FormProblem(CommitOf(again)).Some? then FormProblem(CommitOf(again))
      else if again.event == first.event && again.program.id == first.program.id then None else Some(EventConflict)
  {
    var c := CommitOf(again);
    assert c.event == again.event && c.program == again.program.id;
    CommitDecided(m, again);
    hide CommitOf, Books, FormProblem, VersionsProblem, Put, CommitCollides, SameCore, BatchPersists;
  }

  // ----- what is committed stays within the template -----

  /**
   The earnings the service commits for an event of an accepted program: each is positive, at most what the template's
   own rule for its slot would pay, and together they are the exact total of the program's rules, which is at most the
   template's and within the cap.
   */
  lemma CommittedWithinTemplate(event: Event, program: Program, template: Template, attributions: seq<Attribution>,
          now: int)
    requires ProgramProblem(program, template).None? && forall i :: 0 <= i < |template.rules| ==>
      ValidTiers(template.rules[i].tiers)
    requires CalculationProblem(template.(rules := EffectiveRules(program.rules, attributions)), event).None?
    ensures var amount := event.commissionable.minor as int;
      var payouts := Payouts(EffectiveRules(program.rules, attributions), event.commissionable);
      (forall e :: e in NewEarnings(event, program, template, payouts, now) ==>
         e.amount.minor > 0 && IsWithin(e.slot, e.amount.minor as int, template.rules, amount)) &&
      SumOf(payouts) ==
        RulesTotal(EffectiveRules(program.rules, attributions), amount) <= RulesTotal(template.rules, amount) &&
      (IsCapped(template) ==> SumOf(payouts) <= template.maxCommission.minor as int)
  {
    var rules := EffectiveRules(program.rules, attributions);
    CapSoundness(program, template, attributions, event.commissionable.minor as int);
    CalculationExact(template.(rules := rules), event);
    PayoutsWithin(rules, template.rules, event.commissionable);
    hide Total, RulesTotal, CalculationProblem, ProgramProblem, IsWithin, EffectiveRules, Payouts, SumOf;
    var payouts := Payouts(rules, event.commissionable);
    forall e | e in NewEarnings(event, program, template, payouts, now)
      ensures e.amount.minor > 0 &&
        IsWithin(e.slot, e.amount.minor as int, template.rules, event.commissionable.minor as int)
    {
      var i :| 0 <= i < |payouts| && e == NewEarning(event, program, template, payouts[i], now);
      assert payouts[i] in payouts;
    }
  }
}
