/** Runs of the commission store: any operations in any order, with commits as the service builds them. */
module CommissionRuns {
  import opened Prelude
  import opened Sorting
  import opened CommissionFormula
  import opened CommissionCap
  import opened CommissionLedger

  /** `control` is whatever the control plane holds at that moment; `due` what the store finds due. */
  datatype Op =
    | CommitEvent(control: Control, event: Event, program: Program, template: Template, tracked: map<string, int64>,
                  calculations: seq<Calculation>, now: int)
    | ChangeEarning(tenant: string, id: EarningID, expected: int, action: Action, now: int)
    | ReleaseDue(now: int, limit: int, due: seq<Earning>)
    | StartBatch(batch: Settlement, versions: map<EarningID, int>, now: int)
    | FinishBatch(key: SettlementKey, expected: int, settled: bool, reference: string, now: int)
    | Publish(published: OutboxKey, now: int)

  function CommitOf(op: Op): Commit
    requires op.CommitEvent?
  {
    ServiceCommit(op.event, op.program, op.template, op.tracked, op.calculations, op.now)
  }

  /** Only the list of due earnings is not the caller's choice. */
  ghost predicate IsPossible(l: Ledger, op: Op, digest: EarningID -> int) {
    op.ReleaseDue? ==> IsDueList(l, op.now, digest, op.due)
  }

  function Problem(l: Ledger, op: Op, digest: EarningID -> int): Option<LedgerError>
    requires op.ReleaseDue? ==> AllCanChange(op.due, MakeAvailable)
  {
    if op.CommitEvent? then CommitProblem(l, op.control, CommitOf(op))
    else if op.ChangeEarning? then TransitionProblem(l, op.tenant, op.id, op.expected, op.action, op.now)
    else if op.ReleaseDue? then DueProblem(l, op.now, op.limit, op.due)
    else if op.StartBatch? then StartProblem(l, op.batch, op.versions, op.now, digest)
    else if op.FinishBatch? then FinishProblem(l, op.key, op.expected, op.settled, op.reference, op.now)
    else PublishProblem(l, op.published, op.now)
  }

  lemma DueCanChange(l: Ledger, op: Op, digest: EarningID -> int)
    requires op.ReleaseDue? && IsPossible(l, op, digest)
    ensures AllCanChange(op.due, MakeAvailable)
  {
    forall i | 0 <= i < |op.due|
      ensures CanChange(op.due[i], MakeAvailable)
    {
      assert op.due[i] in op.due;
    }
  }

  // ----- the steps -----

  ghost predicate Commits(l: Ledger, op: Op, l': Ledger) {
    op.CommitEvent? && CommitProblem(l, op.control, CommitOf(op)).None? && l' == CommitEffect(l, CommitOf(op))
  }

  /** The given earnings move one status further, with their journal entries and events. */
  ghost predicate Moves(l: Ledger, earnings: seq<Earning>, action: Action, l': Ledger) {
    AllCanChange(earnings, action) && AreStored(l, earnings) && l' == ChangeEffect(l, earnings, action)
  }

  /** The earnings are stored as given, each under its own identifier, and none is listed twice. */
  ghost predicate AreStored(l: Ledger, earnings: seq<Earning>) {
    Distinct(EarningKeys(earnings)) && forall i :: 0 <= i < |earnings| ==>
      earnings[i].id in l.earnings && l.earnings[earnings[i].id] == earnings[i]
  }

  ghost predicate Starts(l: Ledger, op: Op, digest: EarningID -> int, l': Ledger) {
    op.StartBatch? && StartProblem(l, op.batch, op.versions, op.now, digest).None? && AllStored(l, op.batch.earnings) &&
    AllCanChange(StoredEarnings(l, op.batch.earnings), StartSettling) && l' == StartEffect(l, op.batch)
  }

  ghost predicate Finishes(l: Ledger, op: Op, l': Ledger) {
    op.FinishBatch? && FinishProblem(l, op.key, op.expected, op.settled, op.reference, op.now).None? &&
    op.key in l.settlements && l' == FinishEffect(l, op.key, op.settled, op.reference)
  }

  ghost predicate Publishes(l: Ledger, op: Op, l': Ledger) {
    op.Publish? && PublishProblem(l, op.published, op.now).None? && l' == PublishEffect(l, op.published, op.now)
  }

  /** An operation changes nothing when it reports an error, and otherwise has its effect. */
  ghost predicate Steps(l: Ledger, op: Op, digest: EarningID -> int, l': Ledger) {
    if op.CommitEvent? then if Problem(l, op, digest).Some? then l' == l else Commits(l, op, l')
    else if op.ChangeEarning? then
      if Problem(l, op, digest).Some? then l' == l
        else op.id in l.earnings && IsManual(op.action) && Moves(l, [l.earnings[op.id]], op.action, l')
    else if op.ReleaseDue? then
      IsDueList(l, op.now, digest, op.due) && AllCanChange(op.due, MakeAvailable) &&
      if Problem(l, op, digest).Some? then l' == l
        else op.limit > 0 && Moves(l, Front(op.due, op.limit), MakeAvailable, l')
    else if op.StartBatch? then if Problem(l, op, digest).Some? then l' == l else Starts(l, op, digest, l')
    else if op.FinishBatch? then if Problem(l, op, digest).Some? then l' == l else Finishes(l, op, l')
    else if Problem(l, op, digest).Some? then l' == l else Publishes(l, op, l')
  }

  /** A run of an empty store. */
  ghost predicate IsRun(ledgers: seq<Ledger>, ops: seq<Op>, digest: EarningID -> int) {
    IsDigest(digest) && |ledgers| == |ops| + 1 && ledgers[0] == EmptyLedger() &&
    forall i :: 0 <= i < |ops| ==> Steps(ledgers[i], ops[i], digest, ledgers[i + 1])
  }

  // ----- what an operation does to the records -----

  /** The identifier is made of the record's own fields. */
  predicate IsRecordOf(e: Earning, id: EarningID) {
    e.id == id && id == EarningID(e.tenant, e.sourceType, e.sourceID, e.program, e.slot, e.beneficiary) &&
      e.version >= 1 &&
    ValidAmount(e.amount)
  }

  ghost predicate IsKeyed(l: Ledger) { forall id :: id in l.earnings ==> IsRecordOf(l.earnings[id], id) }

  function IDs(earnings: seq<Earning>): set<EarningID> { set e | e in earnings :: e.id }

  /** The named earnings are changed; everything else about the map of earnings stays. */
  ghost predicate EarningsMove(m: map<EarningID, Earning>, ids: set<EarningID>, action: Action,
          m': map<EarningID, Earning>)
  {
    ids <= m.Keys && m'.Keys == m.Keys &&
    (forall id :: id in ids ==> CanChange(m[id], action) && m'[id] == Changed(m[id], action)) &&
    (forall id :: id in m && id !in ids ==> m'[id] == m[id])
  }

  lemma {:induction false} MoveShape(m: map<EarningID, Earning>, earnings: seq<Earning>, action: Action)
    requires AllCanChange(earnings, action) && Distinct(EarningKeys(earnings))
    requires forall i :: 0 <= i < |earnings| ==> earnings[i].id in m && m[earnings[i].id] == earnings[i]
    ensures EarningsMove(m, IDs(earnings), action, Put(m, AllChanged(earnings, action), EarningKey))
  {
    if earnings != [] {
      var n := |earnings| - 1;
      LastIsNew(earnings);
      PutLast(m, earnings, action);
      assert Distinct(EarningKeys(earnings[..n])) by {
        assert EarningKeys(earnings[..n]) == EarningKeys(earnings)[..n];
      }
      MoveShape(m, earnings[..n], action);
      hide EarningsMove, Put, AllChanged, Changed, Distinct, IDs, EarningKeys;
      MoveOneMore(m, IDs(earnings[..n]), action, Put(m, AllChanged(earnings[..n], action), EarningKey), earnings[n].id);
    }
  }

  lemma PutLast(m: map<EarningID, Earning>, earnings: seq<Earning>, action: Action)
    requires earnings != [] && AllCanChange(earnings, action)
    ensures var n := |earnings| - 1;
      AllCanChange(earnings[..n], action) &&
      Put(m, AllChanged(earnings, action), EarningKey) ==
        Put(m, AllChanged(earnings[..n], action), EarningKey)[earnings[n].id := Changed(earnings[n], action)]
  {
    var n := |earnings| - 1;
    assert AllChanged(earnings, action)[..n] == AllChanged(earnings[..n], action);
    assert EarningKey(AllChanged(earnings, action)[n]) == earnings[n].id;
  }

  lemma MoveOneMore(m: map<EarningID, Earning>, ids: set<EarningID>, action: Action, moved: map<EarningID, Earning>,
          last: EarningID)
    requires EarningsMove(m, ids, action, moved) && last in m && last !in ids && CanChange(m[last], action)
    ensures EarningsMove(m, ids + {last}, action, moved[last := Changed(m[last], action)])
  {
    hide Transition;
  }

  lemma LastIsNew(earnings: seq<Earning>)
    requires earnings != [] && Distinct(EarningKeys(earnings))
    ensures var n :=
      |earnings| - 1; IDs(earnings) == IDs(earnings[..n]) + {earnings[n].id} && earnings[n].id !in IDs(earnings[..n])
  {
    var n := |earnings| - 1;
    assert earnings == earnings[..n] + [earnings[n]];
    assert forall i :: 0 <= i < n ==> EarningKeys(earnings)[i] == earnings[..n][i].id;
    assert EarningKeys(earnings)[n] == earnings[n].id;
  }

  /** The stored earnings of distinct identifiers. */
  lemma StoredAreStored(l: Ledger, ids: seq<EarningID>)
    requires IsKeyed(l) && AllStored(l, ids) && Distinct(ids)
    ensures AreStored(l, StoredEarnings(l, ids)) && EarningKeys(StoredEarnings(l, ids)) == ids
  {
    assert forall i :: 0 <= i < |ids| ==> IsRecordOf(l.earnings[ids[i]], ids[i]);
  }

  /** The version one of the earnings has once it is changed. */
  ghost predicate IsNext(m: map<EarningID, Earning>, ids: set<EarningID>, id: EarningID, version: int) {
    id in ids && id in m && version == m[id].version + 1
  }

  /** Where the entries of a change come from. */
  ghost predicate EntriesFrom(l: Ledger, ids: set<EarningID>, l': Ledger) {
    (forall id :: id in l'.journalIDs ==> id in l.journalIDs || IsNext(l.earnings, ids, id.earning, id.version)) &&
    (forall k :: k in l'.outbox ==>
      k in l.outbox ||
        (k.id.aggregate.EarningAggregate? && IsNext(l.earnings, ids, k.id.aggregate.earning, k.id.version)))
  }

  lemma MoveEntries(l: Ledger, earnings: seq<Earning>, action: Action)
    requires AllCanChange(earnings, action) && AreStored(l, earnings)
    ensures EntriesFrom(l, IDs(earnings), ChangeEffect(l, earnings, action))
  {
    var changed := AllChanged(earnings, action);
    var journals, outbox := ChangeJournals(changed, action), ChangeEvents(changed);
    ChangeKeys(l, earnings, action);
    PutOrigin(l.outbox, outbox, KeyOf);
    hide Put, Changed, CanChange, ChangeJournals, ChangeEvents, KeyOf, IsNext;
    assert ChangeEffect(l, earnings, action).journalIDs == l.journalIDs + set id | id in JournalKeys(journals);
  }

  lemma ChangeKeys(l: Ledger, earnings: seq<Earning>, action: Action)
    requires AllCanChange(earnings, action) && AreStored(l, earnings)
    ensures var changed := AllChanged(earnings, action);
      (forall j :: j in JournalKeys(ChangeJournals(changed, action)) ==>
        IsNext(l.earnings, IDs(earnings), j.earning, j.version)) &&
      (forall i :: 0 <= i < |earnings| ==>
         var k := KeyOf(ChangeEvents(changed)[i]);
         k.id.aggregate.EarningAggregate? && IsNext(l.earnings, IDs(earnings), k.id.aggregate.earning, k.id.version))
  {
    hide Transition, Distinct;
    assert forall i :: 0 <= i < |earnings| ==> earnings[i] in earnings && earnings[i].id in IDs(earnings);
  }

  // ----- identifiers are never used twice -----

  /** Journal entries and events name stored earnings and batches, at versions those have reached. */
  ghost predicate JournalIDsBounded(l: Ledger) {
    forall id :: id in l.journalIDs ==> id.earning in l.earnings && id.version <= l.earnings[id.earning].version
  }

  ghost predicate IsBounded(l: Ledger, k: OutboxKey) {
    match k.id.aggregate
    case EarningAggregate(id) => id in l.earnings && k.id.version <= l.earnings[id].version
    case SettlementAggregate(s) =>
      SettlementKey(k.tenant, s) in l.settlements && k.id.version <= l.settlements[SettlementKey(k.tenant, s)].version
  }

  ghost predicate OutboxBounded(l: Ledger) { forall k :: k in l.outbox ==> IsBounded(l, k) }

  ghost predicate SettlementsKeyed(l: Ledger) {
    forall k :: k in l.settlements ==> KeyOfSettlement(l.settlements[k]) == k && l.settlements[k].version >= 1
  }

  ghost predicate IsIndexed(l: Ledger) { IsKeyed(l) && SettlementsKeyed(l) && JournalIDsBounded(l) && OutboxBounded(l) }

  lemma MoveKeepsKeyed(m: map<EarningID, Earning>, ids: set<EarningID>, action: Action, m': map<EarningID, Earning>)
    requires EarningsMove(m, ids, action, m') && forall id :: id in m ==> IsRecordOf(m[id], id)
    ensures forall id :: id in m' ==> IsRecordOf(m'[id], id) && m[id].version <= m'[id].version
  {
    hide Transition, ValidAmount;
  }

  lemma EntriesStayBounded(l: Ledger, ids: set<EarningID>, action: Action, l': Ledger)
    requires JournalIDsBounded(l) && OutboxBounded(l) && EntriesFrom(l, ids, l') && l'.settlements == l.settlements
    requires EarningsMove(l.earnings, ids, action, l'.earnings)
    requires forall id :: id in l.earnings ==> l.earnings[id].version <= l'.earnings[id].version
    ensures JournalIDsBounded(l') && OutboxBounded(l')
  {
    hide Transition;
    forall k | k in l'.outbox
      ensures IsBounded(l', k)
    {
      if k in l.outbox {
        assert IsBounded(l, k);
      }
    }
  }

  lemma MoveIsIndexed(l: Ledger, earnings: seq<Earning>, action: Action, l': Ledger)
    requires IsIndexed(l) && Moves(l, earnings, action, l')
    ensures IsIndexed(l') && EarningsMove(l.earnings, IDs(earnings), action, l'.earnings)
  {
    MovesApart(l, earnings, action, l');
    assert l'.earnings.Keys == l.earnings.Keys;
    hide EarningsMove, EntriesFrom, JournalIDsBounded, OutboxBounded, Moves, IsRecordOf;
    MoveKeepsKeyed(l.earnings, IDs(earnings), action, l'.earnings);
    EntriesStayBounded(l, IDs(earnings), action, l');
  }

  lemma MovesApart(l: Ledger, earnings: seq<Earning>, action: Action, l': Ledger)
    requires Moves(l, earnings, action, l')
    ensures EarningsMove(l.earnings, IDs(earnings), action, l'.earnings) && EntriesFrom(l, IDs(earnings), l')
    ensures l'.settlements == l.settlements && l'.events == l.events
    ensures AllCanChange(earnings, action) &&
      l'.journals == l.journals + ChangeJournals(AllChanged(earnings, action), action)
  {
    MoveEntries(l, earnings, action);
    MoveShape(l.earnings, earnings, action);
    hide EarningsMove, EntriesFrom, Put, AllCanChange, ChangeJournals, ChangeEvents;
  }

  /** Changes of stored earnings never run into an entry that exists already. */
  lemma MoveNeverCollides(l: Ledger, earnings: seq<Earning>, action: Action)
    requires IsIndexed(l) && AllCanChange(earnings, action) && AreStored(l, earnings)
    ensures !ChangeCollides(l, earnings, action)
  {
    var changed := AllChanged(earnings, action);
    var ids, keys := JournalKeys(ChangeJournals(changed, action)), OutboxKeys(ChangeEvents(changed));
    ChangeKeys(l, earnings, action);
    ChangeKeysDistinct(earnings, action);
    hide AllChanged, ChangeJournals, ChangeEvents, AllCanChange, IsRecordOf, Distinct;
    forall k | k in keys
      ensures k !in l.outbox
    {
      assert k in l.outbox ==> IsBounded(l, k);
    }
  }

  lemma ChangeKeysDistinct(earnings: seq<Earning>, action: Action)
    requires AllCanChange(earnings, action) && Distinct(EarningKeys(earnings))
    ensures var changed := AllChanged(earnings, action);
      Distinct(JournalKeys(ChangeJournals(changed, action))) && Distinct(OutboxKeys(ChangeEvents(changed)))
  {
    hide Transition;
    assert forall i :: 0 <= i < |earnings| ==> EarningKeys(earnings)[i] == earnings[i].id;
  }

  // ----- commits -----

  /** A new earning of the event, not stored before. */
  ghost predicate IsNewEarning(l: Ledger, c: Commit, e: Earning, id: EarningID) {
    IsRecordOf(e, id) && id !in l.earnings && e.version == 1 && (e.status.Pending? || e.status.Available?) &&
    EventKey(id.tenant, id.sourceType, id.sourceID) == KeyOfEvent(c.event) && id.program == c.program
  }

  ghost predicate EarningsAdded(l: Ledger, c: Commit, m': map<EarningID, Earning>) {
    m'.Keys == l.earnings.Keys + IDs(c.earnings) && (forall id :: id in l.earnings ==> m'[id] == l.earnings[id]) &&
    (forall i :: 0 <= i < |c.earnings| ==> c.earnings[i].id in m' && m'[c.earnings[i].id] == c.earnings[i]) &&
    (forall id :: id in IDs(c.earnings) ==> id in m' && IsNewEarning(l, c, m'[id], id))
  }

  /** Where the entries of a commit come from. */
  ghost predicate EntriesAdded(l: Ledger, c: Commit, l': Ledger) {
    (forall id :: id in l'.journalIDs ==> id in l.journalIDs || (id.earning in IDs(c.earnings) && id.version == 1)) &&
    (forall k :: k in l'.outbox ==>
      k in l.outbox ||
        (k.id.aggregate.EarningAggregate? && k.id.aggregate.earning in IDs(c.earnings) && k.id.version == 1))
  }

  ghost predicate PutsAll(m: map<EarningID, Earning>, s: seq<Earning>, m': map<EarningID, Earning>) {
    m'.Keys == m.Keys + IDs(s) && (forall id :: id in m && id !in IDs(s) ==> m'[id] == m[id]) &&
    (forall i :: 0 <= i < |s| ==> s[i].id in m' && m'[s[i].id] == s[i])
  }

  lemma {:induction false} PutAdds(m: map<EarningID, Earning>, s: seq<Earning>)
    requires Distinct(EarningKeys(s))
    ensures PutsAll(m, s, Put(m, s, EarningKey))
  {
    if s != [] {
      var n := |s| - 1;
      assert EarningKeys(s[..n]) == EarningKeys(s)[..n];
      PutAdds(m, s[..n]);
      assert Put(m, s, EarningKey) == Put(m, s[..n], EarningKey)[s[n].id := s[n]] by { hide PutsAll, Distinct; }
      hide PutsAll, Put;
      PutsOneMore(m, s, Put(m, s[..n], EarningKey));
    }
  }

  lemma PutsOneMore(m: map<EarningID, Earning>, s: seq<Earning>, moved: map<EarningID, Earning>)
    requires s != [] && Distinct(EarningKeys(s)) && PutsAll(m, s[..|s| - 1], moved)
    ensures PutsAll(m, s, moved[s[|s| - 1].id := s[|s| - 1]])
  {
    var n := |s| - 1;
    LastIsNew(s);
    hide Distinct, EarningKeys;
    forall i | 0 <= i < n
      ensures s[i].id in moved && moved[s[i].id] == s[i] && s[i].id in IDs(s[..n])
    {
      assert s[..n][i] == s[i] && s[..n][i] in s[..n];
    }
    hide IDs;
  }

  lemma CommitAddsEarnings(l: Ledger, op: Op, l': Ledger)
    requires Commits(l, op, l') && KeyOfEvent(op.event) !in l.events
    ensures EarningsAdded(l, CommitOf(op), l'.earnings)
  {
    var c := CommitOf(op);
    assert c.event == op.event && c.program == op.program.id;
    assert FormProblem(c).None? && !CommitCollides(l, c) && l'.earnings == Put(l.earnings, c.earnings, EarningKey) by {
      hide FormProblem, VersionsProblem, CommitCollides, Put, CommitOf;
    }
    NewEarningsAreRecords(c, op);
    PutAdds(l.earnings, c.earnings);
    NoneStored(l, c);
    hide Put, CommitOf, Commits, FormProblem, IsRecordOf, EarningKeys, CommitCollides, Distinct, PutsAll, EarningsAdded;
    AddsNew(l, c, l'.earnings);
  }

  lemma AddsNew(l: Ledger, c: Commit, m': map<EarningID, Earning>)
    requires PutsAll(l.earnings, c.earnings, m')
    requires forall i :: 0 <= i < |c.earnings| ==> c.earnings[i].id !in l.earnings
    requires forall i :: 0 <= i < |c.earnings| ==>
      (c.earnings[i].version == 1 && IsRecordOf(c.earnings[i], c.earnings[i].id) &&
       (c.earnings[i].status.Pending? || c.earnings[i].status.Available?) &&
       EventKey(c.earnings[i].id.tenant, c.earnings[i].id.sourceType, c.earnings[i].id.sourceID) ==
         KeyOfEvent(c.event) &&
       c.earnings[i].id.program == c.program)
    ensures EarningsAdded(l, c, m')
  {
    hide IsRecordOf, KeyOfEvent;
    forall id | id in IDs(c.earnings)
      ensures id !in l.earnings && id in m' && IsNewEarning(l, c, m'[id], id)
    {
      var e :| e in c.earnings && e.id == id;
      var i :| 0 <= i < |c.earnings| && c.earnings[i] == e;
    }
  }

  lemma NoneStored(l: Ledger, c: Commit)
    requires !CommitCollides(l, c)
    ensures forall i :: 0 <= i < |c.earnings| ==> c.earnings[i].id !in l.earnings
  {
    assert forall i :: 0 <= i < |c.earnings| ==>
      EarningKeys(c.earnings)[i] == c.earnings[i].id && EarningKeys(c.earnings)[i] in EarningKeys(c.earnings);
  }

  lemma NewEarningsAreRecords(c: Commit, op: Op)
    requires op.CommitEvent? && c == CommitOf(op) && FormProblem(c).None?
    ensures Distinct(EarningKeys(c.earnings))
    ensures forall i :: 0 <= i < |c.earnings| ==>
      (c.earnings[i].version == 1 && IsRecordOf(c.earnings[i], c.earnings[i].id) &&
       (c.earnings[i].status.Pending? || c.earnings[i].status.Available?) &&
       EventKey(c.earnings[i].id.tenant, c.earnings[i].id.sourceType, c.earnings[i].id.sourceID) ==
         KeyOfEvent(c.event) &&
       c.earnings[i].id.program == c.program)
  {
    hide ValidEvent, ValidBeneficiary, ValidAmount;
    forall i | 0 <= i < |c.earnings|
      ensures ValidAmount(c.earnings[i].amount)
    {
      assert c.earnings[i] in c.earnings && BelongsTo(c.earnings[i], c);
    }
    assert c.earnings == NewEarnings(op.event, op.program, op.template, op.calculations, op.now);
  }

  /** The journal entries of new earnings, each made for one of them at its first version. */
  lemma {:induction false} NewJournalsOf(earnings: seq<Earning>, j: Journal)
    requires j in AllNewJournals(earnings)
    ensures exists e :: e in earnings && j == JournalOf(e, j.kind)
  {
    if earnings != [] {
      var n := |earnings| - 1;
      if j in AllNewJournals(earnings[..n]) {
        NewJournalsOf(earnings[..n], j);
        var e :| e in earnings[..n] && j == JournalOf(e, j.kind);
        assert e in earnings;
      } else {
        assert j in NewJournals(earnings[n]) && earnings[n] in earnings;
        assert j == JournalOf(earnings[n], j.kind);
      }
    }
  }

  lemma CommitAddsEntries(l: Ledger, c: Commit)
    requires c.outbox == AllNewEvents(c.earnings) && c.journals == AllNewJournals(c.earnings) &&
      KeyOfEvent(c.event) !in l.events
    requires forall i :: 0 <= i < |c.earnings| ==> c.earnings[i].version == 1
    ensures EntriesAdded(l, c, CommitEffect(l, c))
  {
    hide Put, AllNewJournals, FormProblem;
    PutOrigin(l.outbox, c.outbox, KeyOf);
    assert forall i :: 0 <= i < |c.outbox| ==>
      (KeyOf(c.outbox[i]).id.aggregate == EarningAggregate(c.earnings[i].id) &&
       KeyOf(c.outbox[i]).id.version == 1 && c.earnings[i] in c.earnings && c.earnings[i].id in IDs(c.earnings));
    NewJournalKeys(c.earnings, c.journals);
    hide AllNewEvents, KeyOf, IDs, JournalKeys;
  }

  lemma NewJournalKeys(earnings: seq<Earning>, journals: seq<Journal>)
    requires journals == AllNewJournals(earnings) && forall i :: 0 <= i < |earnings| ==> earnings[i].version == 1
    ensures forall id :: id in JournalKeys(journals) ==> id.earning in IDs(earnings) && id.version == 1
  {
    hide AllNewJournals;
    forall id | id in JournalKeys(journals)
      ensures id.earning in IDs(earnings) && id.version == 1
    {
      var i :| 0 <= i < |journals| && journals[i].id == id;
      NewJournalsOf(earnings, journals[i]);
    }
  }

  lemma AddedIsIndexed(l: Ledger, c: Commit, l': Ledger)
    requires IsIndexed(l) && EarningsAdded(l, c, l'.earnings) && EntriesAdded(l, c, l') &&
      l'.settlements == l.settlements
    ensures IsIndexed(l')
  {
    hide IsRecordOf, IDs;
    assert IsKeyed(l');
    forall k | k in l'.outbox
      ensures IsBounded(l', k)
    {
      if k in l.outbox {
        assert IsBounded(l, k);
      } else {
        assert IsNewEarning(l, c, l'.earnings[k.id.aggregate.earning], k.id.aggregate.earning);
      }
    }
    forall id | id in l'.journalIDs
      ensures id.earning in l'.earnings && id.version <= l'.earnings[id.earning].version
    {
      if id !in l.journalIDs {
        assert IsNewEarning(l, c, l'.earnings[id.earning], id.earning);
      }
    }
  }

  lemma CommitIsIndexed(l: Ledger, op: Op, l': Ledger)
    requires IsIndexed(l) && Commits(l, op, l')
    ensures IsIndexed(l')
  {
    var c := CommitOf(op);
    assert KeyOfEvent(c.event) == KeyOfEvent(op.event) && FormProblem(c).None? && l' == CommitEffect(l, c) by {
      hide FormProblem, CommitEffect;
    }
    if KeyOfEvent(op.event) !in l.events {
      NewEarningsAreRecords(c, op);
      CommitAddsEarnings(l, op, l');
      assert c.outbox == AllNewEvents(c.earnings) && c.journals == AllNewJournals(c.earnings);
      hide CommitOf, FormProblem, IsRecordOf, EarningsAdded, EntriesAdded, IsIndexed, Put, AllNewEvents, AllNewJournals;
      CommitAddsEntries(l, c);
      AddedIsIndexed(l, c, l');
    }
  }

  // ----- settlements and publishing -----

  function IDSet(ids: seq<EarningID>): set<EarningID> { set id | id in ids }

  /** What starting a batch does: it claims available earnings of its own account that add up to its amount. */
  ghost predicate Claims(l: Ledger, s: Settlement, l': Ledger) {
    KeyOfSettlement(s) !in l.settlements && l'.settlements == l.settlements[KeyOfSettlement(s) := s] &&
    s.status.Submitted? && s.version > 0 && s.id != "" && s.tenant != "" && s.earnings != [] && Distinct(s.earnings) &&
    (forall id :: id in s.earnings ==>
      id in l.earnings && l.earnings[id].status.Available? && InAccount(l.earnings[id], s)) &&
    AllStored(l, s.earnings) && SumOfStored(l.earnings, s.earnings) == s.amount.minor as int &&
    EarningsMove(l.earnings, IDSet(s.earnings), StartSettling, l'.earnings)
  }

  /** The beneficiary and currency of a batch, within its tenant. */
  predicate InAccount(e: Earning, s: Settlement) {
    e.tenant == s.tenant && e.beneficiary == s.beneficiary && e.amount.currency == s.amount.currency
  }

  lemma StartClaims(l: Ledger, op: Op, digest: EarningID -> int, l': Ledger)
    requires IsKeyed(l) && IsDigest(digest) && Starts(l, op, digest, l')
    ensures Claims(l, op.batch, l') && l'.journals == l.journals && l'.journalIDs == l.journalIDs &&
      l'.events == l.events
    ensures l'.outbox == l.outbox[KeyOf(SettlementNotice(op.batch)) := SettlementNotice(op.batch)]
  {
    var s := op.batch;
    ClaimedEarnings(l, s, op.versions, digest);
    StoredAreStored(l, s.earnings);
    assert IDs(StoredEarnings(l, s.earnings)) == IDSet(s.earnings) by { StoredIDs(l, s.earnings); }
    hide Put, ClaimProblem, Sort, IsKeyed, SumOfStored, SettlementNotice, EarningsMove, IDs, IDSet, Distinct,
      ValidAmount, ValidBeneficiary;
    MoveShape(l.earnings, StoredEarnings(l, s.earnings), StartSettling);
  }

  lemma StoredIDs(l: Ledger, ids: seq<EarningID>)
    requires IsKeyed(l) && AllStored(l, ids)
    ensures IDs(StoredEarnings(l, ids)) == IDSet(ids)
  {
    var stored := StoredEarnings(l, ids);
    assert forall i :: 0 <= i < |ids| ==>
      IsRecordOf(l.earnings[ids[i]], ids[i]) && stored[i] in stored && stored[i].id == ids[i];
  }

  lemma ClaimedEarnings(l: Ledger, s: Settlement, versions: map<EarningID, int>, digest: EarningID -> int)
    requires IsDigest(digest) && ClaimProblem(l, s, versions, Sort(s.earnings, ByDigest(digest)), 0).None?
    ensures forall id :: id in s.earnings ==>
      id in l.earnings && l.earnings[id].status.Available? && InAccount(l.earnings[id], s)
    ensures AllStored(l, s.earnings) && SumOfStored(l.earnings, s.earnings) == s.amount.minor as int
  {
    var sorted := Sort(s.earnings, ByDigest(digest));
    SortMembers(s.earnings, ByDigest(digest));
    SortSorts(s.earnings, ByDigest(digest));
    hide Sort, ClaimProblem, IsSorted;
    ClaimsAddUp(l, s, versions, sorted, 0);
    forall id | id in s.earnings
      ensures id in l.earnings && l.earnings[id].status.Available? && InAccount(l.earnings[id], s)
    {
      assert id in sorted && IsClaimable(l, s, versions, id);
    }
    SumOfPermutation(l.earnings, s.earnings, sorted);
  }

  lemma {:induction false} SumAppend(m: map<EarningID, Earning>, a: seq<EarningID>, b: seq<EarningID>)
    requires forall id :: id in a || id in b ==> id in m
    ensures SumOfStored(m, a + b) == SumOfStored(m, a) + SumOfStored(m, b)
  {
    if a == [] {
      assert a + b == b;
    } else {
      assert (a + b)[1..] == a[1..] + b;
      SumAppend(m, a[1..], b);
    }
  }

  lemma {:induction false} SumOfPermutation(m: map<EarningID, Earning>, a: seq<EarningID>, b: seq<EarningID>)
    requires multiset(a) == multiset(b) && forall id :: id in a || id in b ==> id in m
    ensures SumOfStored(m, a) == SumOfStored(m, b)
    decreases |a|
  {
    if a == [] {
      assert |multiset(b)| == 0;
    } else {
      var i := PermutationWithout(a, b);
      SumOfPermutation(m, a[1..], b[..i] + b[i + 1..]);
      SumAppend(m, b[..i], b[i + 1..]);
      SumAppend(m, b[..i], b[i..]);
      assert b == b[..i] + b[i..] && b[i..][1..] == b[i + 1..];
    }
  }

  /** A batch is stored, at a version not below its earlier one, together with its event. */
  lemma SettlementIsIndexed(l: Ledger, s: Settlement, l': Ledger)
    requires IsIndexed(l) && s.version >= 1
    requires KeyOfSettlement(s) in l.settlements ==> l.settlements[KeyOfSettlement(s)].version <= s.version
    requires IsKeyed(l') && l'.earnings.Keys == l.earnings.Keys && l'.journalIDs == l.journalIDs
    requires forall id :: id in l.earnings ==> l.earnings[id].version <= l'.earnings[id].version
    requires l'.settlements == l.settlements[KeyOfSettlement(s) := s]
    requires l'.outbox == l.outbox[KeyOf(SettlementNotice(s)) := SettlementNotice(s)]
    ensures IsIndexed(l')
  {
    hide IsRecordOf;
    forall k | k in l'.outbox
      ensures IsBounded(l', k)
    {
      assert k in l.outbox ==> IsBounded(l, k);
    }
  }

  lemma StartIsIndexed(l: Ledger, op: Op, digest: EarningID -> int, l': Ledger)
    requires IsIndexed(l) && IsDigest(digest) && Starts(l, op, digest, l')
    ensures IsIndexed(l')
  {
    var s := op.batch;
    StartClaims(l, op, digest, l');
    MoveKeepsKeyed(l.earnings, IDSet(s.earnings), StartSettling, l'.earnings);
    assert l'.earnings.Keys == l.earnings.Keys;
    hide Starts, EarningsMove, IsRecordOf, SumOfStored, IDSet, InAccount, JournalIDsBounded, OutboxBounded,
      SettlementNotice;
    SettlementIsIndexed(l, s, l');
  }

  /** What finishing a submitted batch does. */
  ghost predicate Resolves(l: Ledger, key: SettlementKey, settled: bool, reference: string, l': Ledger) {
    key in l.settlements && l.settlements[key].status.Submitted? &&
    l'.settlements == l.settlements[key := Completed(l.settlements[key], settled, reference)] &&
    EarningsMove(l.earnings, IDSet(l.settlements[key].earnings), OutcomeAction(settled), l'.earnings)
  }

  lemma FinishResolves(l: Ledger, op: Op, l': Ledger) returns (changed: Ledger)
    requires IsIndexed(l) && Finishes(l, op, l') && l.settlements[op.key].status.Submitted?
    ensures Resolves(l, op.key, op.settled, op.reference, l') && AllStored(l, l.settlements[op.key].earnings)
    ensures Moves(l, StoredEarnings(l, l.settlements[op.key].earnings), OutcomeAction(op.settled), changed)
    ensures var notice := SettlementNotice(Completed(l.settlements[op.key], op.settled, op.reference));
      l' == changed.(settlements := l'.settlements, outbox := changed.outbox[KeyOf(notice) := notice])
  {
    var s := l.settlements[op.key];
    var stored := StoredEarnings(l, s.earnings);
    assert Distinct(s.earnings) by { NoCollisionIsDistinct(l, s.earnings, OutcomeAction(op.settled)); }
    StoredAreStored(l, s.earnings);
    StoredIDs(l, s.earnings);
    changed := ChangeEffect(l, stored, OutcomeAction(op.settled));
    hide Put, ChangeCollides, EarningsMove, IsIndexed, IDs, IDSet, SettlementNotice, Post, AllChanged, ChangeJournals,
      ChangeEvents;
    MovesApart(l, stored, OutcomeAction(op.settled), changed);
  }

  lemma NoCollisionIsDistinct(l: Ledger, ids: seq<EarningID>, action: Action)
    requires IsKeyed(l) && AllStored(l, ids) && AllCanChange(StoredEarnings(l, ids), action)
    requires !ChangeCollides(l, StoredEarnings(l, ids), action)
    ensures Distinct(ids)
  {
    hide Transition, IsRecordOf;
    var changed := AllChanged(StoredEarnings(l, ids), action);
    var keys := OutboxKeys(ChangeEvents(changed));
    forall i, j | 0 <= i < j < |ids|
      ensures ids[i] != ids[j]
    {
      assert keys[i] != keys[j];
      assert keys[i] == KeyOf(ChangeEvent(changed[i])) && keys[j] == KeyOf(ChangeEvent(changed[j]));
    }
  }

  lemma SameRecordsKeyed(a: Ledger, b: Ledger)
    requires IsKeyed(a) && a.earnings == b.earnings
    ensures IsKeyed(b)
  {
  }

  lemma FinishIsIndexed(l: Ledger, op: Op, l': Ledger)
    requires IsIndexed(l) && Finishes(l, op, l')
    ensures IsIndexed(l')
  {
    if l.settlements[op.key].status.Submitted? {
      var changed := FinishResolves(l, op, l');
      var s := Completed(l.settlements[op.key], op.settled, op.reference);
      MoveIsIndexed(l, StoredEarnings(l, l.settlements[op.key].earnings), OutcomeAction(op.settled), changed);
      assert changed.settlements == l.settlements by { hide Put, ChangeJournals, ChangeEvents; }
      assert KeyOfSettlement(s) == op.key && s.version > l.settlements[op.key].version >= 1;
      SameRecordsKeyed(changed, l');
      hide Finishes, Moves, IDSet, EarningsMove, JournalIDsBounded, OutboxBounded, SettlementNotice, SettlementsKeyed,
        IsKeyed;
      SettlementIsIndexed(changed, s, l');
    }
  }

  lemma PublishIsIndexed(l: Ledger, op: Op, l': Ledger)
    requires IsIndexed(l) && Publishes(l, op, l')
    ensures IsIndexed(l')
  {
    hide IsRecordOf;
    assert forall k :: k in l.outbox ==> IsBounded(l, k) && IsBounded(l', k);
  }

  lemma StepIsIndexed(l: Ledger, op: Op, digest: EarningID -> int, l': Ledger)
    requires IsIndexed(l) && IsDigest(digest) && Steps(l, op, digest, l')
    ensures IsIndexed(l')
  {
    hide IsIndexed, Commits, Moves, Starts, Finishes, Problem, IsDigest, IsDueList, AllCanChange, Put;
    if op.CommitEvent? {
      if l' != l { CommitIsIndexed(l, op, l'); }
    } else if op.ChangeEarning? {
      if l' != l { MoveIsIndexed(l, [l.earnings[op.id]], op.action, l'); }
    } else if op.ReleaseDue? {
      if l' != l { MoveIsIndexed(l, Front(op.due, op.limit), MakeAvailable, l'); }
    } else if op.StartBatch? {
      if l' != l { StartIsIndexed(l, op, digest, l'); }
    } else if op.FinishBatch? {
      if l' != l { FinishIsIndexed(l, op, l'); }
    } else {
      if l' != l {
        PublishIsIndexed(l, op, l');
      }
    }
  }
}
