/**
 What each operation of a store in order answers and leaves, in terms of the records before and after it: which statuses
 change into which, what is written down for each change, and when an operation is refused.
 */
module CommissionOutcomes {
  import opened Prelude
  import opened Sorting
  import opened CommissionFormula
  import opened CommissionCap
  import opened CommissionLedger
  import opened CommissionRuns
  import opened CommissionBalance
  import opened CommissionHistory
  import opened CommissionBooks
  import opened CommissionAnswers

  // ----- changes of status -----

  /** All changes of status there are. */
  predicate IsMove(from: EarningStatus, action: Action, to: EarningStatus) {
    (from == Pending && action == MakeAvailable && to == Available) ||
    (from in {Pending, Available} && action == Hold && to == Held) ||
    (from == Held && action == Release && to == Available) ||
    (from in {Available, Held} && action == Reverse && to == Reversed) ||
    (from == Available && action == StartSettling && to == Settling) ||
    (from == Settling && action == Settle && to == Settled) ||
    (from == Settling && action == RejectSettling && to == Available) ||
    (from == Settled && action == Reverse && to == RecoveryDue)
  }

  /** The journal entry for a change of status. */
  predicate IsEntry(action: Action, to: EarningStatus, kind: JournalKind) {
    (to == Available && kind == AvailableEntry) || (to == Held && kind == HeldEntry) ||
    (to == Settled && kind == SettlementEntry) || (to == Reversed && kind == ReversalEntry) ||
    (to == RecoveryDue && kind == RecoveryEntry) || (action == StartSettling && kind == AvailableEntry)
  }

  lemma MovesExactly(from: EarningStatus, action: Action, to: EarningStatus)
    ensures Transition(from, action) == Some(to) <==> IsMove(from, action, to)
    ensures IsMove(from, action, to) ==> IsEntry(action, to, KindFor(action, to))
  {
  }

  /** The same earning, one version on in another status. */
  predicate Stepped(e: Earning, e': Earning, to: EarningStatus) {
    e' == e.(status := to, version := e.version + 1)
  }

  predicate Tells(j: Journal, e: Earning, kind: JournalKind) {
    j.earning == e.id && j.tenant == e.tenant && j.amount == e.amount && j.kind == kind &&
    j.id == JournalID(e.id, kind, e.version)
  }

  /** An unpublished event about the earning's new status. */
  predicate Announces(k: OutboxKey, o: OutboxEvent, e: Earning) {
    o.tenant == e.tenant && o.aggregate == EarningAggregate(e.id) && o.eventType == EarningEvent(e.status) &&
    o.published == None && k == OutboxKey(e.tenant, o.id) && o.id.aggregate == o.aggregate && o.id.version == e.version
  }

  /** The earnings change their status by the action, and no other earning changes. */
  ghost predicate Advance(m: map<EarningID, Earning>, ids: seq<EarningID>, action: Action,
          m': map<EarningID, Earning>)
  {
    m'.Keys == m.Keys && (forall id :: id in m && id !in ids ==> m'[id] == m[id]) &&
    forall id :: id in ids ==> id in m && Advances(m[id], action, m'[id])
  }

  ghost predicate Advances(e: Earning, action: Action, e': Earning) {
    IsMove(e.status, action, e'.status) && Stepped(e, e', e'.status)
  }

  /** One entry is appended for each change, in order. */
  ghost predicate WritesDown(l: Ledger, ids: seq<EarningID>, action: Action, l': Ledger) {
    |l'.journals| == |l.journals| + |ids| && l.journals <= l'.journals &&
    forall i :: 0 <= i < |ids| ==>
      ids[i] in l'.earnings && IsWritten(l'.earnings[ids[i]], action, l'.journals[|l.journals| + i])
  }

  ghost predicate IsWritten(e: Earning, action: Action, j: Journal) {
    IsEntry(action, e.status, j.kind) && Tells(j, e, j.kind)
  }

  /** One event for each change is new in the outbox, and nothing else is. */
  ghost predicate Announced(outbox: map<OutboxKey, OutboxEvent>, ids: seq<EarningID>, m: map<EarningID, Earning>,
          outbox': map<OutboxKey, OutboxEvent>)
  {
    (forall k :: k in outbox ==> k in outbox' && outbox'[k] == outbox[k]) &&
    (forall id :: id in ids ==> exists k :: IsNewEvent(outbox, m, outbox', k, id)) &&
    (forall k :: k in outbox' && k !in outbox ==> exists id :: id in ids && IsNewEvent(outbox, m, outbox', k, id))
  }

  ghost predicate IsNewEvent(outbox: map<OutboxKey, OutboxEvent>, m: map<EarningID, Earning>,
          outbox': map<OutboxKey, OutboxEvent>, k: OutboxKey, id: EarningID)
  {
    k !in outbox && k in outbox' && id in m && Announces(k, outbox'[k], m[id])
  }

  /** The change of these earnings, written down and announced, is all that happens. */
  ghost predicate Advanced(l: Ledger, ids: seq<EarningID>, action: Action, l': Ledger) {
    Advance(l.earnings, ids, action, l'.earnings) && WritesDown(l, ids, action, l') &&
    Announced(l.outbox, ids, l'.earnings, l'.outbox) && l'.settlements == l.settlements && l'.events == l.events
  }

  lemma ChangedAdvances(e: Earning, action: Action)
    requires CanChange(e, action)
    ensures Advances(e, action, Changed(e, action)) &&
      IsWritten(Changed(e, action), action, ChangeJournal(Changed(e, action), action))
    ensures Announces(KeyOf(ChangeEvent(Changed(e, action))), ChangeEvent(Changed(e, action)), Changed(e, action))
  {
    MovesExactly(e.status, action, Transition(e.status, action).value);
    hide Transition, IsMove, IsEntry, KindFor;
  }

  lemma MoveAdvances(l: Ledger, earnings: seq<Earning>, action: Action, l': Ledger)
    requires IsIndexed(l) && Moves(l, earnings, action, l')
    ensures Advanced(l, EarningKeys(earnings), action, l')
  {
    MovesApart(l, earnings, action, l');
    assert AllCanChange(earnings, action) && AreStored(l, earnings);
    EarningsAdvance(l, earnings, action, l');
    EntriesFollow(l, earnings, action, l');
    MoveNeverCollides(l, earnings, action);
    EventsFollow(l, earnings, action, l');
    hide Moves, Advance, WritesDown, Announced, EarningsMove, EntriesFrom, IsIndexed, ChangeCollides, AreStored;
  }

  lemma EarningsAdvance(l: Ledger, earnings: seq<Earning>, action: Action, l': Ledger)
    requires AllCanChange(earnings, action) && AreStored(l, earnings)
    requires EarningsMove(l.earnings, IDs(earnings), action, l'.earnings)
    ensures Advance(l.earnings, EarningKeys(earnings), action, l'.earnings)
  {
    hide Transition, Advances, Distinct;
    KeysAndIDs(earnings);
    hide IDs, EarningKeys;
    forall id | id in EarningKeys(earnings)
      ensures id in l.earnings && Advances(l.earnings[id], action, l'.earnings[id])
    {
      ChangedAdvances(l.earnings[id], action);
    }
  }

  lemma EntriesFollow(l: Ledger, earnings: seq<Earning>, action: Action, l': Ledger)
    requires AllCanChange(earnings, action) && AreStored(l, earnings)
    requires EarningsMove(l.earnings, IDs(earnings), action, l'.earnings)
    requires l'.journals == l.journals + ChangeJournals(AllChanged(earnings, action), action)
    ensures WritesDown(l, EarningKeys(earnings), action, l')
  {
    hide Transition, Distinct, IsWritten, CanChange;
    forall i | 0 <= i < |earnings|
      ensures var id := EarningKeys(earnings)[i];
        id in l'.earnings && IsWritten(l'.earnings[id], action, l'.journals[|l.journals| + i])
    {
      assert earnings[i] in earnings && earnings[i].id in IDs(earnings);
      ChangedAdvances(earnings[i], action);
    }
  }

  /** New events are added to the outbox and replace none. */
  lemma EventsAreAdded(outbox: map<OutboxKey, OutboxEvent>, added: seq<OutboxEvent>)
    requires Distinct(OutboxKeys(added)) && forall k :: k in OutboxKeys(added) ==> k !in outbox
    ensures var outbox' := Put(outbox, added, KeyOf);
      (forall k :: k in outbox ==> k in outbox' && outbox'[k] == outbox[k]) &&
      (forall i :: 0 <= i < |added| ==>
        KeyOf(added[i]) !in outbox && KeyOf(added[i]) in outbox' && outbox'[KeyOf(added[i])] == added[i]) &&
      (forall k :: k in outbox' && k !in outbox ==> exists i :: 0 <= i < |added| && KeyOf(added[i]) == k)
  {
    var keys := OutboxKeys(added);
    assert forall i :: 0 <= i < |added| ==> keys[i] == KeyOf(added[i]) && keys[i] in keys;
    PutShape(outbox, added, KeyOf);
    hide Put, KeyOf, OutboxKeys;
    forall k | k in outbox
      ensures Put(outbox, added, KeyOf)[k] == outbox[k]
    {
      assert forall i :: 0 <= i < |added| ==> KeyOf(added[i]) != k;
    }
  }

  lemma EventOf(l: Ledger, earnings: seq<Earning>, action: Action, l': Ledger, i: nat)
    requires AllCanChange(earnings, action) && AreStored(l, earnings) && i < |earnings|
    requires EarningsMove(l.earnings, IDs(earnings), action, l'.earnings)
    ensures earnings[i].id in l'.earnings
    ensures var o := ChangeEvents(AllChanged(earnings, action))[i]; Announces(KeyOf(o), o, l'.earnings[earnings[i].id])
  {
    assert earnings[i] in earnings && earnings[i].id in IDs(earnings);
    ChangedAdvances(earnings[i], action);
    hide Transition, IsWritten, Advances, Announces, Distinct, KeyOf, ChangeEvent;
  }

  lemma EventsFollow(l: Ledger, earnings: seq<Earning>, action: Action, l': Ledger)
    requires AllCanChange(earnings, action) && AreStored(l, earnings) && l' == ChangeEffect(l, earnings, action)
    requires EarningsMove(l.earnings, IDs(earnings), action, l'.earnings) && !ChangeCollides(l, earnings, action)
    ensures Announced(l.outbox, EarningKeys(earnings), l'.earnings, l'.outbox)
  {
    var added := ChangeEvents(AllChanged(earnings, action));
    assert l'.outbox == Put(l.outbox, added, KeyOf);
    EventsAreAdded(l.outbox, added);
    AddedCount(earnings, action);
    hide Put, ChangeEvents, AllChanged, KeyOf, ChangeCollides, ChangeEffect, EarningsMove, AreStored, Announces,
      AllCanChange;
    forall i | 0 <= i < |earnings|
      ensures IsNewEvent(l.outbox, l'.earnings, l'.outbox, KeyOf(added[i]), EarningKeys(earnings)[i])
    {
      EventOf(l, earnings, action, l', i);
    }
    hide *;
    AnnouncedFrom(l, EarningKeys(earnings), added, l');
  }

  lemma AnnouncedFrom(l: Ledger, ids: seq<EarningID>, added: seq<OutboxEvent>, l': Ledger)
    requires |ids| == |added|
    requires forall i :: 0 <= i < |added| ==>
      IsNewEvent(l.outbox, l'.earnings, l'.outbox, KeyOf(added[i]), ids[i])
    requires forall k :: k in l.outbox ==> k in l'.outbox && l'.outbox[k] == l.outbox[k]
    requires forall k :: k in l'.outbox && k !in l.outbox ==> exists i :: 0 <= i < |added| && KeyOf(added[i]) == k
    ensures Announced(l.outbox, ids, l'.earnings, l'.outbox)
  {
    hide IsNewEvent, KeyOf;
    forall id | id in ids
      ensures exists k :: IsNewEvent(l.outbox, l'.earnings, l'.outbox, k, id)
    {
      var i :| 0 <= i < |ids| && ids[i] == id;
      assert IsNewEvent(l.outbox, l'.earnings, l'.outbox, KeyOf(added[i]), id);
    }
    forall k | k in l'.outbox && k !in l.outbox
      ensures exists id :: id in ids && IsNewEvent(l.outbox, l'.earnings, l'.outbox, k, id)
    {
      var i :| 0 <= i < |added| && KeyOf(added[i]) == k;
      assert ids[i] in ids && IsNewEvent(l.outbox, l'.earnings, l'.outbox, k, ids[i]);
    }
  }

  lemma AddedCount(earnings: seq<Earning>, action: Action)
    requires AllCanChange(earnings, action)
    ensures |ChangeEvents(AllChanged(earnings, action))| == |earnings| == |EarningKeys(earnings)|
  {
  }

  // ----- one earning -----

  /** What a manual change asks of the earning. */
  ghost predicate MayChange(l: Ledger, tenant: string, id: EarningID, expected: int, action: Action) {
    id in l.earnings && l.earnings[id].tenant == tenant && l.earnings[id].version == expected &&
    exists to :: IsMove(l.earnings[id].status, action, to)
  }

  lemma CanChangeExactly(e: Earning, action: Action)
    ensures CanChange(e, action) <==> exists to :: IsMove(e.status, action, to)
  {
    if CanChange(e, action) {
      MovesExactly(e.status, action, Transition(e.status, action).value);
    }
    if to :| IsMove(e.status, action, to) {
      MovesExactly(e.status, action, to);
    }
  }

  lemma ChangeAccepted(l: Ledger, tenant: string, id: EarningID, expected: int, action: Action, now: int)
    requires IsIndexed(l)
    ensures TransitionProblem(l, tenant, id, expected, action, now).None? <==>
      tenant != "" && expected > 0 && now != 0 && action in {Hold, Release, Reverse} &&
      MayChange(l, tenant, id, expected, action)
  {
    assert IsKeyed(l);
    hide IsIndexed, ChangeCollides, IsMove, CanChange, AreStored;
    if id in l.earnings {
      CanChangeExactly(l.earnings[id], action);
      OneIsStored(l, id);
      if CanChange(l.earnings[id], action) {
        MoveNeverCollides(l, [l.earnings[id]], action);
      }
    }
  }

  /** A manual change succeeds exactly when it names the earning as it is, and then changes nothing else. */
  lemma ChangeAnswers(l: Ledger, op: Op, digest: EarningID -> int, l': Ledger)
    requires Books(l) && IsDigest(digest) && op.ChangeEarning? && Steps(l, op, digest, l')
    ensures Problem(l, op, digest).None? <==>
      op.tenant != "" && op.expected > 0 && op.now != 0 && op.action in {Hold, Release, Reverse} &&
      MayChange(l, op.tenant, op.id, op.expected, op.action)
    ensures if Problem(l, op, digest).None? then Advanced(l, [op.id], op.action, l') else l' == l
  {
    ChangeAccepted(l, op.tenant, op.id, op.expected, op.action, op.now);
    assert Problem(l, op, digest) == TransitionProblem(l, op.tenant, op.id, op.expected, op.action, op.now);
    assert IsIndexed(l);
    hide Problem, TransitionProblem, MayChange, Moves, Books, IsIndexed;
    if Problem(l, op, digest).None? {
      OneMoves(l, op, digest, l');
    }
    hide Advanced;
  }

  lemma OneMoves(l: Ledger, op: Op, digest: EarningID -> int, l': Ledger)
    requires IsIndexed(l) && op.ChangeEarning? && Steps(l, op, digest, l') && Problem(l, op, digest).None?
    ensures Advanced(l, [op.id], op.action, l')
  {
    hide Problem, Moves, Advanced, IsManual;
    assert IsRecordOf(l.earnings[op.id], op.id);
    assert EarningKeys([l.earnings[op.id]]) == [op.id];
    MoveAdvances(l, [l.earnings[op.id]], op.action, l');
  }

  /** Why a manual change of proper form is refused. */
  lemma ChangeRefused(l: Ledger, op: Op, digest: EarningID -> int)
    requires op.ChangeEarning? && op.tenant != "" && op.expected > 0 && op.now != 0 &&
      op.action in {Hold, Release, Reverse}
    ensures op.id !in l.earnings || l.earnings[op.id].tenant != op.tenant ==>
      Problem(l, op, digest) == Some(EarningNotFound)
    ensures op.id in l.earnings && l.earnings[op.id].tenant == op.tenant && l.earnings[op.id].version != op.expected ==>
      Problem(l, op, digest) == Some(VersionConflict)
    ensures op.id in l.earnings && l.earnings[op.id].tenant == op.tenant && l.earnings[op.id].version == op.expected ==>
      (forall to :: !IsMove(l.earnings[op.id].status, op.action, to)) ==>
        Problem(l, op, digest) == Some(InvalidEarningTransition)
  {
    if op.id in l.earnings {
      CanChangeExactly(l.earnings[op.id], op.action);
    }
    hide CanChange, IsMove, ChangeCollides;
  }

  // ----- due earnings -----

  /** The earning waits for a time that has come. */
  predicate HasCome(e: Earning, now: int) { e.status == Pending && e.availableAt <= now }

  /** At most `limit` earnings whose time has come are released: the earliest of them, or all. */
  ghost predicate Releases(l: Ledger, now: int, limit: int, ids: seq<EarningID>, l': Ledger) {
    Distinct(ids) && |ids| <= limit && Advanced(l, ids, MakeAvailable, l') &&
    (forall id :: id in ids ==> id in l.earnings && HasCome(l.earnings[id], now)) &&
    forall id :: id in l.earnings && id !in ids && HasCome(l.earnings[id], now) ==>
      |ids| == limit && IsAfter(l, ids, id)
  }

  /** The earning is due no earlier than any of those. */
  ghost predicate IsAfter(l: Ledger, ids: seq<EarningID>, id: EarningID) {
    id in l.earnings &&
    forall r :: r in ids ==> r in l.earnings && l.earnings[r].availableAt <= l.earnings[id].availableAt
  }

  lemma ReleaseAnswers(l: Ledger, op: Op, digest: EarningID -> int, l': Ledger)
    requires Books(l) && IsDigest(digest) && op.ReleaseDue? && Steps(l, op, digest, l')
    ensures AllCanChange(op.due, MakeAvailable)
    ensures Problem(l, op, digest).None? <==> op.now != 0 && op.limit > 0
    ensures if Problem(l, op, digest).None? then exists ids :: Releases(l, op.now, op.limit, ids, l') else l' == l
  {
    DueNeverCollides(l, op, digest);
    hide IsBalanced, EventsRecorded, JournalsTell, JournalsMatch, Releases, ChangeCollides, Moves;
    if Problem(l, op, digest).None? {
      var front := Front(op.due, op.limit);
      FrontReleases(l, op.now, op.limit, digest, op.due, l');
      assert Releases(l, op.now, op.limit, EarningKeys(front), l');
    }
    hide IsIndexed, IsDueList, AllCanChange;
  }

  lemma FrontReleases(l: Ledger, now: int, limit: int, digest: EarningID -> int, due: seq<Earning>, l': Ledger)
    requires IsIndexed(l) && limit > 0 && IsDueList(l, now, digest, due)
    requires Moves(l, Front(due, limit), MakeAvailable, l')
    ensures Releases(l, now, limit, EarningKeys(Front(due, limit)), l')
  {
    assert IsKeyed(l);
    hide *;
    var front := Front(due, limit);
    var ids := EarningKeys(front);
    MoveAdvances(l, front, MakeAvailable, l');
    FrontHasCome(l, now, limit, digest, due);
    forall id | id in l.earnings && id !in ids && HasCome(l.earnings[id], now)
      ensures |ids| == limit && IsAfter(l, ids, id)
    {
      LeftIsLater(l, now, limit, digest, due, id);
    }
    EarliestAreReleased(l, now, limit, ids, l');
  }

  lemma EarliestAreReleased(l: Ledger, now: int, limit: int, ids: seq<EarningID>, l': Ledger)
    requires Distinct(ids) && |ids| <= limit && Advanced(l, ids, MakeAvailable, l')
    requires forall id :: id in ids ==> id in l.earnings && HasCome(l.earnings[id], now)
    requires forall id :: id in l.earnings && id !in ids && HasCome(l.earnings[id], now) ==>
      |ids| == limit && IsAfter(l, ids, id)
    ensures Releases(l, now, limit, ids, l')
  {
    hide Distinct, Advanced, HasCome, IsAfter;
  }

  lemma FrontHasCome(l: Ledger, now: int, limit: int, digest: EarningID -> int, due: seq<Earning>)
    requires limit > 0 && IsDueList(l, now, digest, due)
    ensures var ids := EarningKeys(Front(due, limit));
      Distinct(ids) && |ids| <= limit && forall id :: id in ids ==> id in l.earnings && HasCome(l.earnings[id], now)
  {
    var front := Front(due, limit);
    FrontIsStored(l, now, digest, due, limit);
    hide IsSorted, DueOrder, Distinct;
    forall id | id in EarningKeys(front)
      ensures id in l.earnings && HasCome(l.earnings[id], now)
    {
      var i :| 0 <= i < |front| && front[i].id == id;
      assert front[i] == due[i] && due[i] in due;
    }
  }

  lemma NotInFront(due: seq<Earning>, limit: int, e: Earning)
    requires limit > 0 && e in due && e.id !in EarningKeys(Front(due, limit))
    ensures |due| > limit && e in due[limit..]
  {
    var k :| 0 <= k < |due| && due[k] == e;
    var front := Front(due, limit);
    assert forall i :: 0 <= i < |front| ==> EarningKeys(front)[i] == due[i].id;
    assert due[limit..][k - limit] == e;
  }

  lemma FrontIsEarlier(due: seq<Earning>, limit: int, digest: EarningID -> int, early: Earning, e: Earning)
    requires 0 < limit < |due| && IsSorted(due, DueOrder(digest)) && early in due[..limit] && e in due[limit..]
    ensures early.availableAt <= e.availableAt
  {
    var i :| 0 <= i < limit && due[..limit][i] == early;
    var k :| 0 <= k < |due| - limit && due[limit..][k] == e;
    assert DueOrder(digest)(due[i], due[limit + k]);
  }

  lemma LeftIsLater(l: Ledger, now: int, limit: int, digest: EarningID -> int, due: seq<Earning>, id: EarningID)
    requires IsKeyed(l) && limit > 0 && IsDueList(l, now, digest, due)
    requires id in l.earnings && id !in EarningKeys(Front(due, limit)) && HasCome(l.earnings[id], now)
    ensures |EarningKeys(Front(due, limit))| == limit && IsAfter(l, EarningKeys(Front(due, limit)), id)
  {
    hide IsSorted, DueOrder, Distinct;
    var front, ids := Front(due, limit), EarningKeys(Front(due, limit));
    assert IsRecordOf(l.earnings[id], id) && l.earnings[id] in due;
    NotInFront(due, limit, l.earnings[id]);
    forall r | r in ids
      ensures r in l.earnings && l.earnings[r].availableAt <= l.earnings[id].availableAt
    {
      var i :| 0 <= i < |front| && front[i].id == r;
      assert front[i] == due[i] && due[i] in due && due[i] in due[..limit];
      FrontIsEarlier(due, limit, digest, due[i], l.earnings[id]);
    }
  }

  // ----- a decided event -----

  /** The earning for the `i`-th calculation: available at the end of the freeze period, at once if that has passed. */
  predicate IsDecided(op: Op, i: nat, e: Earning)
    requires op.CommitEvent?
  {
    i < |op.calculations| && e.tenant == op.event.tenant && e.sourceType == op.event.sourceType &&
    e.sourceID == op.event.sourceID && e.program == op.program.id && e.template == op.template.id &&
    e.templateVersion == op.template.version && e.slot == op.calculations[i].slot &&
    e.beneficiary == op.calculations[i].beneficiary && e.amount == op.calculations[i].amount && e.version == 1 &&
    e.availableAt == op.event.occurredAt + op.template.freezePeriod &&
    e.status == (if e.availableAt <= op.now then Available else Pending) &&
    e.id == EarningID(e.tenant, e.sourceType, e.sourceID, e.program, e.slot, e.beneficiary)
  }

  /** An accrual for every new earning, and a release for those available at once. */
  predicate IsFirstEntry(e: Earning, j: Journal) {
    Tells(j, e, AccrualEntry) || (e.status == Available && Tells(j, e, AvailableEntry))
  }

  ghost predicate Decides(l: Ledger, op: Op, ids: seq<EarningID>, l': Ledger)
    requires op.CommitEvent?
  {
    |ids| == |op.calculations| && Distinct(ids) &&
    (forall i :: 0 <= i < |ids| ==>
      ids[i] !in l.earnings && ids[i] in l'.earnings && IsDecided(op, i, l'.earnings[ids[i]])) &&
    (forall id :: id in l.earnings ==> id in l'.earnings && l'.earnings[id] == l.earnings[id]) &&
    (forall id :: id in l'.earnings ==> id in l.earnings || id in ids)
  }

  ghost predicate DecidesEntries(l: Ledger, ids: seq<EarningID>, l': Ledger) {
    l.journals <= l'.journals && (forall id :: id in ids ==> id in l'.earnings) &&
    forall j :: j in l'.journals[|l.journals|..] <==> exists id :: id in ids && IsFirstEntry(l'.earnings[id], j)
  }

  lemma {:induction false} FirstEntries(earnings: seq<Earning>, j: Journal)
    ensures j in AllNewJournals(earnings) <==> exists e :: e in earnings && IsFirstEntry(e, j)
  {
    if earnings != [] {
      var n := |earnings| - 1;
      FirstEntries(earnings[..n], j);
      FirstEntriesOfOne(earnings[n], j);
      assert earnings == earnings[..n] + [earnings[n]];
      hide NewJournals, IsFirstEntry;
    }
  }

  lemma FirstEntriesOfOne(e: Earning, j: Journal)
    ensures j in NewJournals(e) <==> IsFirstEntry(e, j)
  {
  }

  /** The first commit of an event stores exactly its earnings, with their entries, events and the decision. */
  lemma CommitAnswers(l: Ledger, op: Op, l': Ledger)
    requires op.CommitEvent? && Commits(l, op, l') && KeyOfEvent(op.event) !in l.events
    ensures exists ids ::
      Decides(l, op, ids, l') && DecidesEntries(l, ids, l') && Announced(l.outbox, ids, l'.earnings, l'.outbox) &&
      l'.settlements == l.settlements &&
      l'.events == l.events[EventKey(op.event.tenant, op.event.sourceType, op.event.sourceID) :=
        Recorded(Fingerprint(op.event, op.program.id), ids)]
  {
    var c := CommitOf(op);
    FirstCommit(l, op, l');
    MadeCommit(op);
    assert EventKey(op.event.tenant, op.event.sourceType, op.event.sourceID) == KeyOfEvent(c.event);
    assert Fingerprint(op.event, op.program.id) == Fingerprint(c.event, c.program);
    hide *;
    DecidedEarnings(l, op, c, l');
    DecidedEntries(l, c, l');
    DecidedEvents(l, c, l');
    AddsRest(l, c, l');
  }

  /** What the service makes of its inputs. */
  lemma MadeCommit(op: Op)
    requires op.CommitEvent?
    ensures var c := CommitOf(op);
      c.event == op.event && c.program == op.program.id && c.outbox == AllNewEvents(c.earnings) &&
      c.earnings == NewEarnings(op.event, op.program, op.template, op.calculations, op.now)
  {
    hide NewEarnings, AllNewJournals, AllNewEvents;
  }

  lemma FirstCommit(l: Ledger, op: Op, l': Ledger)
    requires op.CommitEvent? && Commits(l, op, l') && KeyOfEvent(op.event) !in l.events
    ensures var c := CommitOf(op);
      Adds(l, c, l') && Distinct(EarningKeys(c.earnings)) && FormProblem(c).None? && !CommitCollides(l, c) &&
      l'.outbox == Put(l.outbox, c.outbox, KeyOf)
  {
    var c := CommitOf(op);
    MadeCommit(op);
    hide FormProblem, VersionsProblem, CommitCollides, Put, CommitOf, Adds, Distinct, EarningKeys;
    assert KeyOfEvent(op.event) in l'.events;
    CommitAdds(l, op, l');
  }

  lemma AddsRest(l: Ledger, c: Commit, l': Ledger)
    requires Adds(l, c, l')
    ensures l'.settlements == l.settlements
    ensures l'.events == l.events[KeyOfEvent(c.event) := Recorded(Fingerprint(c.event, c.program),
      EarningKeys(c.earnings))]
    ensures l'.journals == l.journals + AllNewJournals(c.earnings)
    ensures EarningsAdded(l, c, l'.earnings)
  {
    hide EarningsAdded, AllNewJournals;
  }

  lemma DecidedEarnings(l: Ledger, op: Op, c: Commit, l': Ledger)
    requires op.CommitEvent? && Adds(l, c, l') && Distinct(EarningKeys(c.earnings))
    requires c.earnings == NewEarnings(op.event, op.program, op.template, op.calculations, op.now)
    ensures Decides(l, op, EarningKeys(c.earnings), l')
  {
    AddsRest(l, c, l');
    KeysAndIDs(c.earnings);
    hide Adds, Distinct, AllNewJournals, IsRecordOf;
    var ids := EarningKeys(c.earnings);
    forall i | 0 <= i < |ids|
      ensures ids[i] !in l.earnings && ids[i] in l'.earnings && IsDecided(op, i, l'.earnings[ids[i]])
    {
      assert ids[i] in ids && ids[i] in IDs(c.earnings);
      assert l'.earnings[ids[i]] == c.earnings[i];
      DecidedEarning(op, i);
      hide IDs, IsDecided, EarningsAdded, NewEarnings;
    }
    hide IsDecided, NewEarnings;
  }

  lemma DecidedEarning(op: Op, i: nat)
    requires op.CommitEvent? && i < |op.calculations|
    ensures IsDecided(op, i, NewEarnings(op.event, op.program, op.template, op.calculations, op.now)[i])
  {
  }

  lemma AddedIs(l: Ledger, c: Commit, l': Ledger)
    requires Adds(l, c, l')
    ensures forall e :: e in c.earnings ==> e.id in l'.earnings && l'.earnings[e.id] == e
    ensures forall id :: id in EarningKeys(c.earnings) <==> exists e :: e in c.earnings && e.id == id
  {
    AddsRest(l, c, l');
    hide Adds, AllNewJournals, IDs;
    forall e | e in c.earnings
      ensures e.id in l'.earnings && l'.earnings[e.id] == e && e.id in EarningKeys(c.earnings)
    {
      var i :| 0 <= i < |c.earnings| && c.earnings[i] == e;
      assert EarningKeys(c.earnings)[i] == e.id;
    }
  }

  lemma DecidedEntries(l: Ledger, c: Commit, l': Ledger)
    requires Adds(l, c, l')
    ensures DecidesEntries(l, EarningKeys(c.earnings), l')
  {
    AddsRest(l, c, l');
    AddedIs(l, c, l');
    hide Adds, AllNewJournals, IsFirstEntry, EarningsAdded, EarningKeys;
    var added := AllNewJournals(c.earnings);
    assert l'.journals[|l.journals|..] == added;
    forall j
      ensures j in added <==> exists id :: id in EarningKeys(c.earnings) && IsFirstEntry(l'.earnings[id], j)
    {
      FirstEntries(c.earnings, j);
    }
  }

  lemma FormKeepsEventsApart(c: Commit)
    requires FormProblem(c).None?
    ensures Distinct(OutboxKeys(c.outbox))
  {
    var ids := seq(|c.outbox|, i requires 0 <= i < |c.outbox| => c.outbox[i].id);
    assert Distinct(ids);
    hide FormProblem;
    forall i, j | 0 <= i < j < |c.outbox|
      ensures OutboxKeys(c.outbox)[i] != OutboxKeys(c.outbox)[j]
    {
      assert ids[i] != ids[j];
    }
  }

  lemma NoneThere(l: Ledger, c: Commit)
    requires !CommitCollides(l, c)
    ensures forall k :: k in OutboxKeys(c.outbox) ==> k !in l.outbox
  {
  }

  lemma DecidedEvents(l: Ledger, c: Commit, l': Ledger)
    requires Adds(l, c, l') && FormProblem(c).None? && !CommitCollides(l, c)
    requires l'.outbox == Put(l.outbox, c.outbox, KeyOf) && c.outbox == AllNewEvents(c.earnings)
    ensures Announced(l.outbox, EarningKeys(c.earnings), l'.earnings, l'.outbox)
  {
    FormKeepsEventsApart(c);
    NoneThere(l, c);
    AddedIs(l, c, l');
    EventsAreAdded(l.outbox, c.outbox);
    hide Put, FormProblem, Distinct, CommitCollides, Adds, OutboxKeys;
    forall i | 0 <= i < |c.outbox|
      ensures IsNewEvent(l.outbox, l'.earnings, l'.outbox, KeyOf(c.outbox[i]), EarningKeys(c.earnings)[i])
    {
      assert c.earnings[i] in c.earnings && c.outbox[i] == CommissionLedger.NewEvent(c.earnings[i]);
    }
    assert |c.outbox| == |EarningKeys(c.earnings)|;
    hide *;
    AnnouncedFrom(l, EarningKeys(c.earnings), c.outbox, l');
  }

  // ----- which commits are accepted -----

  /** The record is complete and about the commit's own event, program and template. */
  predicate IsAbout(e: Earning, c: Commit) {
    e.tenant == c.event.tenant != "" && e.program == c.program != "" && e.template == c.template != "" &&
    e.templateVersion == c.templateVersion > 0 && e.sourceType == c.event.sourceType != "" &&
    e.sourceID == c.event.sourceID != "" && e.slot != "" && IsPayee(e.beneficiary) && IsMoney(e.amount) &&
    e.availableAt != 0 && e.version > 0
  }

  /** Entries are for the commit's tenant and for one of its earnings. */
  ghost predicate IsAboutOne(j: Journal, c: Commit) {
    j.tenant == c.event.tenant && IsMoney(j.amount) && exists e :: e in c.earnings && e.id == j.earning
  }

  /** Names and versions are given, and records of all three kinds or of none. */
  predicate IsHeaded(c: Commit) {
    c.program != "" && c.template != "" && c.programVersion > 0 && c.templateVersion > 0 &&
    c.attributionVersions != None &&
    ((|c.earnings| == 0 && |c.journals| == 0 && |c.outbox| == 0) ||
     (|c.earnings| > 0 && |c.journals| > 0 && |c.outbox| > 0))
  }

  /** Each earning is about the commit, and none is listed twice. */
  ghost predicate EarningsProper(c: Commit) {
    (forall e :: e in c.earnings ==> IsAbout(e, c)) &&
    (forall i, k :: 0 <= i < k < |c.earnings| ==> c.earnings[i].id != c.earnings[k].id)
  }

  ghost predicate IsProper(c: Commit) {
    IsEvent(c.event) && IsHeaded(c) && EarningsProper(c) && (forall j :: j in c.journals ==> IsAboutOne(j, c)) &&
    (forall o :: o in c.outbox ==> o.tenant == c.event.tenant) &&
    (forall i, k :: 0 <= i < k < |c.journals| ==> c.journals[i].id != c.journals[k].id) &&
    (forall i, k :: 0 <= i < k < |c.outbox| ==> c.outbox[i].id != c.outbox[k].id)
  }

  lemma AboutExactly(e: Earning, c: Commit)
    ensures IsAbout(e, c) <==> BelongsTo(e, c)
  {
    PayeeExactly(e.beneficiary);
    MoneyExactly(e.amount);
    hide IsPayee, ValidBeneficiary, IsMoney, ValidAmount;
  }

  lemma AboutOneExactly(j: Journal, c: Commit)
    ensures IsAboutOne(j, c) <==> JournalBelongsTo(j, c)
  {
    MoneyExactly(j.amount);
    hide IsMoney, ValidAmount;
    if e :| e in c.earnings && e.id == j.earning {
      var i :| 0 <= i < |c.earnings| && c.earnings[i] == e;
      assert EarningKeys(c.earnings)[i] == j.earning;
    }
  }

  lemma KeysDistinct(c: Commit)
    ensures Distinct(EarningKeys(c.earnings)) <==>
      forall i, k :: 0 <= i < k < |c.earnings| ==> c.earnings[i].id != c.earnings[k].id
    ensures Distinct(JournalKeys(c.journals)) <==>
      forall i, k :: 0 <= i < k < |c.journals| ==> c.journals[i].id != c.journals[k].id
    ensures Distinct(seq(|c.outbox|, i requires 0 <= i < |c.outbox| => c.outbox[i].id)) <==>
      forall i, k :: 0 <= i < k < |c.outbox| ==> c.outbox[i].id != c.outbox[k].id
  {
    assert forall i :: 0 <= i < |c.earnings| ==> EarningKeys(c.earnings)[i] == c.earnings[i].id;
    assert forall i :: 0 <= i < |c.journals| ==> JournalKeys(c.journals)[i] == c.journals[i].id;
    var ids := seq(|c.outbox|, i requires 0 <= i < |c.outbox| => c.outbox[i].id);
    assert forall i :: 0 <= i < |c.outbox| ==> ids[i] == c.outbox[i].id;
  }

  /** A commit is proper exactly when its records are complete, its own and not listed twice. */
  lemma ProperExactly(c: Commit)
    ensures FormProblem(c).None? <==> IsProper(c)
  {
    EventExactly(c.event);
    forall e
      ensures IsAbout(e, c) <==> BelongsTo(e, c)
    {
      AboutExactly(e, c);
    }
    forall j
      ensures IsAboutOne(j, c) <==> JournalBelongsTo(j, c)
    {
      AboutOneExactly(j, c);
    }
    KeysDistinct(c);
    hide IsEvent, ValidEvent, IsAbout, BelongsTo, IsAboutOne, JournalBelongsTo, Distinct, EarningKeys, JournalKeys;
  }

  /** Each rule's slot has the attribution version that the commit was calculated with. */
  predicate IsTracked(control: Control, c: Commit, program: Program)
    requires c.attributionVersions != None
  {
    forall r :: r in program.rules ==>
      var key, versions := (c.event.tenant, program.id, r.slot), c.attributionVersions.value;
      r.slot in versions &&
      versions[r.slot] == if key in control.attributions then control.attributions[key].version else 0
  }

  /** Program and template are active and as the commit saw them, and so is the attribution of every rule's slot. */
  predicate IsCurrent(control: Control, c: Commit) {
    (c.event.tenant, c.program) in control.programs && (c.template, c.templateVersion) in control.templates &&
    control.templates[(c.template, c.templateVersion)].status == ActiveTemplate && c.attributionVersions != None &&
    var program := control.programs[(c.event.tenant, c.program)];
    program.version == c.programVersion && program.status == ActiveProgram && program.templateID == c.template &&
    program.templateVersion == c.templateVersion && IsTracked(control, c, program)
  }

  lemma CurrentExactly(control: Control, c: Commit)
    requires c.attributionVersions != None
    ensures VersionsProblem(control, c).None? <==> IsCurrent(control, c)
  {
  }

  /** A decided event is committed exactly when it is proper and new and current, or repeats what is recorded. */
  lemma CommitAccepted(l: Ledger, op: Op, digest: EarningID -> int)
    requires Books(l) && op.CommitEvent?
    ensures var c, key := CommitOf(op), EventKey(op.event.tenant, op.event.sourceType, op.event.sourceID);
      Problem(l, op, digest).None? <==>
        IsProper(c) &&
        if key in l.events then l.events[key].fingerprint == Fingerprint(op.event, op.program.id)
        else IsCurrent(op.control, c)
  {
    var c := CommitOf(op);
    CommitDecided(l, op);
    ProperExactly(c);
    MadeCommit(op);
    assert c.attributionVersions != None by { hide NewEarnings, AllNewJournals, AllNewEvents; }
    CurrentExactly(op.control, c);
    hide Books, CommitProblem, FormProblem, VersionsProblem, IsProper, IsCurrent, CommitOf;
  }

  // ----- batches -----

  /** The earning is available at the version its caller saw, and in the batch's account. */
  predicate MayClaim(l: Ledger, s: Settlement, id: EarningID, version: int) {
    id in l.earnings && version > 0 &&
    var e := l.earnings[id];
    e.status == Available && e.version == version && e.tenant == s.tenant && e.beneficiary == s.beneficiary &&
    e.amount.currency == s.amount.currency
  }

  predicate IsBatch(s: Settlement) {
    s.id != "" && s.tenant != "" && IsPayee(s.beneficiary) && IsMoney(s.amount) && s.amount.minor > 0 &&
    s.status == Submitted && s.version > 0 && |s.earnings| > 0 && Distinct(s.earnings)
  }

  /** A new batch of available earnings that add up to its amount. */
  ghost predicate MayStart(l: Ledger, s: Settlement, versions: map<EarningID, int>) {
    IsBatch(s) && |versions| == |s.earnings| && SettlementKey(s.tenant, s.id) !in l.settlements &&
    (forall id :: id in s.earnings ==> id in versions && MayClaim(l, s, id, versions[id])) &&
    AllStored(l, s.earnings) && SumOfStored(l.earnings, s.earnings) == s.amount.minor as int
  }

  predicate AnnouncesBatch(k: OutboxKey, o: OutboxEvent, s: Settlement) {
    o.tenant == s.tenant && o.aggregate == SettlementAggregate(s.id) && o.eventType == SettlementEvent(s.status) &&
    o.published == None && k == OutboxKey(s.tenant, o.id)
  }

  /** Nothing but the earnings' status, the batch and its event. */
  ghost predicate Started(l: Ledger, s: Settlement, l': Ledger) {
    Advance(l.earnings, s.earnings, StartSettling, l'.earnings) && l'.journals == l.journals && l'.events == l.events &&
    l'.settlements == l.settlements[SettlementKey(s.tenant, s.id) := s] &&
    exists k, o :: k !in l.outbox && l'.outbox == l.outbox[k := o] && AnnouncesBatch(k, o, s)
  }

  lemma BatchExactly(s: Settlement, versions: map<EarningID, int>, now: int)
    ensures ValidSettlement(s, versions, now) <==>
      now != 0 && IsBatch(s) && |versions| == |s.earnings| &&
      forall id :: id in s.earnings ==> id in versions && versions[id] > 0
  {
    MoneyExactly(s.amount);
    PayeeExactly(s.beneficiary);
    hide IsPayee, ValidBeneficiary, IsMoney, ValidAmount, Distinct;
  }

  /** Claims that add up to the amount have no problem: no part of the sum overflows before the whole does. */
  lemma {:induction false} ClaimsPossible(l: Ledger, s: Settlement, versions: map<EarningID, int>, ids: seq<EarningID>,
          total: int)
    requires AllStored(l, ids)
    requires forall id :: id in ids ==> IsClaimable(l, s, versions, id) && l.earnings[id].amount.minor >= 0
    requires total + SumOfStored(l.earnings, ids) == s.amount.minor as int
    ensures ClaimProblem(l, s, versions, ids, total).None?
  {
    hide IsClaimable;
    if ids != [] {
      StoredSumNonNegative(l.earnings, ids[1..]);
      ClaimsPossible(l, s, versions, ids[1..], total + l.earnings[ids[0]].amount.minor as int);
    }
  }

  lemma {:induction false} StoredSumNonNegative(m: map<EarningID, Earning>, ids: seq<EarningID>)
    requires forall id :: id in ids ==> id in m && m[id].amount.minor >= 0
    ensures SumOfStored(m, ids) >= 0
  {
    if ids != [] {
      StoredSumNonNegative(m, ids[1..]);
    }
  }

  lemma ClaimsExactly(l: Ledger, s: Settlement, versions: map<EarningID, int>, digest: EarningID -> int)
    requires IsKeyed(l) && IsDigest(digest) && forall id :: id in s.earnings ==> id in versions && versions[id] > 0
    ensures ClaimProblem(l, s, versions, Sort(s.earnings, ByDigest(digest)), 0).None? <==>
      (forall id :: id in s.earnings ==> MayClaim(l, s, id, versions[id])) &&
      AllStored(l, s.earnings) && SumOfStored(l.earnings, s.earnings) == s.amount.minor as int
  {
    var sorted := Sort(s.earnings, ByDigest(digest));
    SortMembers(s.earnings, ByDigest(digest));
    SortSorts(s.earnings, ByDigest(digest));
    assert forall id :: id in s.earnings ==> (MayClaim(l, s, id, versions[id]) <==> IsClaimable(l, s, versions, id));
    assert forall id :: id in l.earnings ==> IsRecordOf(l.earnings[id], id) && l.earnings[id].amount.minor >= 0;
    hide Sort, ClaimProblem, IsSorted, MayClaim, IsClaimable, IsKeyed, IsRecordOf;
    if ClaimProblem(l, s, versions, sorted, 0).None? {
      ClaimsAddUp(l, s, versions, sorted, 0);
      SumOfPermutation(l.earnings, s.earnings, sorted);
    } else if AllClaimable(l, s, versions) && AllStored(l, s.earnings) &&
      SumOfStored(l.earnings, s.earnings) == s.amount.minor as int {
      ClaimableStored(l, s, versions);
      SumOfPermutation(l.earnings, s.earnings, sorted);
      ClaimsPossible(l, s, versions, sorted, 0);
    }
  }

  predicate AllClaimable(l: Ledger, s: Settlement, versions: map<EarningID, int>) {
    forall id :: id in s.earnings ==> IsClaimable(l, s, versions, id)
  }

  lemma ClaimableStored(l: Ledger, s: Settlement, versions: map<EarningID, int>)
    requires AllClaimable(l, s, versions)
    ensures forall id :: id in s.earnings ==> id in l.earnings
  {
  }

  lemma BatchAccepted(l: Ledger, s: Settlement, versions: map<EarningID, int>, now: int, digest: EarningID -> int)
    requires IsKeyed(l) && OutboxBounded(l) && IsDigest(digest)
    ensures StartProblem(l, s, versions, now, digest).None? <==> now != 0 && MayStart(l, s, versions)
  {
    BatchExactly(s, versions, now);
    NoticeIsNew(l, s);
    hide ValidSettlement, IsBatch, MayClaim, ClaimProblem, Sort, SettlementNotice, IsKeyed, OutboxBounded, AllStored,
      ByDigest;
    if forall id :: id in s.earnings ==> id in versions && versions[id] > 0 {
      ClaimsExactly(l, s, versions, digest);
    }
    BatchClaims(l, s, versions);
  }

  lemma BatchClaims(l: Ledger, s: Settlement, versions: map<EarningID, int>)
    ensures MayStart(l, s, versions) ==> forall id :: id in s.earnings ==> id in versions && versions[id] > 0
  {
    hide IsBatch;
  }

  lemma NoticeIsNew(l: Ledger, s: Settlement)
    requires OutboxBounded(l)
    ensures SettlementKey(s.tenant, s.id) !in l.settlements ==> KeyOf(SettlementNotice(s)) !in l.outbox
  {
    var k := KeyOf(SettlementNotice(s));
    assert k in l.outbox ==> IsBounded(l, k);
  }

  /** A batch is started exactly when it may be, and then claims its earnings and changes nothing else. */
  lemma StartAnswers(l: Ledger, op: Op, digest: EarningID -> int, l': Ledger)
    requires Books(l) && IsDigest(digest) && op.StartBatch? && Steps(l, op, digest, l')
    ensures Problem(l, op, digest).None? <==> op.now != 0 && MayStart(l, op.batch, op.versions)
    ensures if Problem(l, op, digest).None? then Started(l, op.batch, l') else l' == l
  {
    assert IsKeyed(l) && OutboxBounded(l);
    BatchAccepted(l, op.batch, op.versions, op.now, digest);
    assert Problem(l, op, digest) == StartProblem(l, op.batch, op.versions, op.now, digest);
    hide Books, Problem, StartProblem, MayStart, Starts, Started, IsKeyed, OutboxBounded;
    if Problem(l, op, digest).None? {
      assert Starts(l, op, digest, l');
      StartStarts(l, op, digest, l');
    }
  }

  lemma StartStarts(l: Ledger, op: Op, digest: EarningID -> int, l': Ledger)
    requires IsKeyed(l) && OutboxBounded(l) && IsDigest(digest) && op.StartBatch? && Starts(l, op, digest, l')
    ensures Started(l, op.batch, l')
  {
    var s := op.batch;
    StartClaims(l, op, digest, l');
    NoticeIsNew(l, s);
    ClaimAdvances(l, s.earnings, StartSettling, l');
    var k, o := KeyOf(SettlementNotice(s)), SettlementNotice(s);
    assert AnnouncesBatch(k, o, s);
    hide Starts, EarningsMove, Advance, SumOfStored, IsKeyed, OutboxBounded, SettlementNotice, AnnouncesBatch,
      InAccount, Distinct, IDSet;
  }

  lemma ClaimAdvances(l: Ledger, ids: seq<EarningID>, action: Action, l': Ledger)
    requires EarningsMove(l.earnings, IDSet(ids), action, l'.earnings)
    ensures Advance(l.earnings, ids, action, l'.earnings)
  {
    hide Transition, Advances;
    forall id | id in ids
      ensures id in l.earnings && Advances(l.earnings[id], action, l'.earnings[id])
    {
      assert id in IDSet(ids);
      ChangedAdvances(l.earnings[id], action);
    }
  }

  // ----- outcomes of batches -----

  /** A submitted batch at the version its caller saw, or one with this outcome and reference already. */
  predicate MayFinish(l: Ledger, key: SettlementKey, expected: int, settled: bool, reference: string) {
    key in l.settlements &&
    var s := l.settlements[key];
    if s.status == Submitted then s.version == expected
    else s.status == (if settled then PaidOut else Rejected) && s.reference == reference
  }

  /** The batch and its earnings take the outcome, all of which is written down and announced. */
  ghost predicate Finished(l: Ledger, key: SettlementKey, settled: bool, reference: string, l': Ledger)
    requires key in l.settlements
  {
    var s, action := l.settlements[key], if settled then Settle else RejectSettling;
    var s' := s.(status := if settled then PaidOut else Rejected, reference := reference, version := s.version + 1);
    Advance(l.earnings, s.earnings, action, l'.earnings) && WritesDown(l, s.earnings, action, l') &&
    l'.settlements == l.settlements[key := s'] && l'.events == l.events &&
    exists k :: FinishAnnounced(l, s.earnings, k, s', l')
  }

  ghost predicate FinishAnnounced(l: Ledger, ids: seq<EarningID>, k: OutboxKey, s: Settlement, l': Ledger) {
    k !in l.outbox && k in l'.outbox && AnnouncesBatch(k, l'.outbox[k], s) &&
    Announced(l.outbox, ids, l'.earnings, l'.outbox - {k})
  }

  /** Which finishes succeed, and why the others of proper form do not. */
  lemma FinishAccepted(l: Ledger, key: SettlementKey, expected: int, settled: bool, reference: string, now: int)
    requires IsIndexed(l) && IsBalanced(l)
    ensures var problem := FinishProblem(l, key, expected, settled, reference, now);
      (problem.None? <==>
        key.tenant != "" && key.id != "" && expected > 0 && now != 0 &&
        MayFinish(l, key, expected, settled, reference)) &&
      (expected > 0 && now != 0 && key in l.settlements && l.settlements[key].status != Submitted ==>
        key.tenant != "" && key.id != "" ==>
          problem == if MayFinish(l, key, expected, settled, reference) then None else Some(SettlementOutcomeConflict))
  {
    if key in l.settlements && l.settlements[key].status.Submitted? && now != 0 {
      SubmittedCanFinish(l, key, settled, reference, now);
    }
    hide IsIndexed, IsBalanced, ChangeCollides, AllSettling, SettlementNotice;
  }

  /** A finish succeeds exactly when the batch awaits it, and is recorded once. */
  lemma FinishAnswers(l: Ledger, op: Op, digest: EarningID -> int, l': Ledger)
    requires Books(l) && IsDigest(digest) && op.FinishBatch? && Steps(l, op, digest, l')
    ensures Problem(l, op, digest).None? <==>
      op.key.tenant != "" && op.key.id != "" && op.expected > 0 && op.now != 0 &&
      MayFinish(l, op.key, op.expected, op.settled, op.reference)
    ensures if Problem(l, op, digest).None? && l.settlements[op.key].status == Submitted
      then Finished(l, op.key, op.settled, op.reference, l') else l' == l
  {
    assert IsIndexed(l) && IsBalanced(l);
    FinishAccepted(l, op.key, op.expected, op.settled, op.reference, op.now);
    assert Problem(l, op, digest) == FinishProblem(l, op.key, op.expected, op.settled, op.reference, op.now);
    hide Books, Problem, FinishProblem, MayFinish, Finished, IsIndexed, IsBalanced;
    if Problem(l, op, digest).None? && l.settlements[op.key].status == Submitted {
      FinishFinishes(l, op, l');
    }
    hide AllSettling, ChangeEffect;
  }

  lemma FinishFinishes(l: Ledger, op: Op, l': Ledger)
    requires IsIndexed(l) && Finishes(l, op, l') && l.settlements[op.key].status == Submitted
    ensures Finished(l, op.key, op.settled, op.reference, l')
  {
    var s := l.settlements[op.key];
    var ids, action := s.earnings, OutcomeAction(op.settled);
    var changed := FinishResolves(l, op, l');
    var done := Completed(s, op.settled, op.reference);
    MoveAdvances(l, StoredEarnings(l, ids), action, changed);
    assert EarningKeys(StoredEarnings(l, ids)) == ids by { StoredKeys(l, ids); }
    ClaimAdvances(l, ids, action, l');
    assert KeyOfSettlement(s) == op.key;
    FinishNotice(l, ids, op.key, done, changed, l');
    hide Finishes, Moves, EarningsMove, Advance, IsIndexed, SettlementNotice, StoredEarnings, Announced,
      FinishAnnounced, IDSet, AllStored;
    assert WritesDown(l, ids, action, l') by { hide IsWritten; }
  }

  lemma StoredKeys(l: Ledger, ids: seq<EarningID>)
    requires IsKeyed(l) && AllStored(l, ids)
    ensures EarningKeys(StoredEarnings(l, ids)) == ids
  {
    assert forall i :: 0 <= i < |ids| ==> IsRecordOf(l.earnings[ids[i]], ids[i]);
  }

  lemma FinishNotice(l: Ledger, ids: seq<EarningID>, key: SettlementKey, done: Settlement, changed: Ledger, l': Ledger)
    requires OutboxBounded(l) && SettlementsKeyed(l) && key in l.settlements
    requires done.tenant == key.tenant && done.id == key.id && done.version > l.settlements[key].version
    requires l'.earnings == changed.earnings
    requires l'.outbox == changed.outbox[KeyOf(SettlementNotice(done)) := SettlementNotice(done)]
    requires Announced(l.outbox, ids, changed.earnings, changed.outbox)
    ensures exists k :: FinishAnnounced(l, ids, k, done, l')
  {
    var k := KeyOf(SettlementNotice(done));
    LaterNoticeIsNew(l, key, done);
    assert AnnouncesBatch(k, SettlementNotice(done), done);
    hide OutboxBounded, SettlementsKeyed, AnnouncesBatch, SettlementNotice, KeyOf;
    NoNoticeAmong(l.outbox, ids, changed.earnings, changed.outbox, k);
    AddedAside(changed.outbox, k, SettlementNotice(done));
    hide *;
    AnnouncedAside(l, ids, k, done, l');
  }

  lemma AddedAside<K, V>(m: map<K, V>, k: K, v: V)
    requires k !in m
    ensures m[k := v] - {k} == m
  {
  }

  lemma AnnouncedAside(l: Ledger, ids: seq<EarningID>, k: OutboxKey, done: Settlement, l': Ledger)
    requires k !in l.outbox && k in l'.outbox && AnnouncesBatch(k, l'.outbox[k], done)
    requires Announced(l.outbox, ids, l'.earnings, l'.outbox - {k})
    ensures FinishAnnounced(l, ids, k, done, l')
  {
    hide Announced, AnnouncesBatch;
  }

  lemma LaterNoticeIsNew(l: Ledger, key: SettlementKey, done: Settlement)
    requires OutboxBounded(l) && SettlementsKeyed(l) && key in l.settlements
    requires done.tenant == key.tenant && done.id == key.id && done.version > l.settlements[key].version
    ensures KeyOf(SettlementNotice(done)) !in l.outbox
    ensures KeyOf(SettlementNotice(done)).id.aggregate.SettlementAggregate?
  {
    var k := KeyOf(SettlementNotice(done));
    assert k in l.outbox ==> IsBounded(l, k);
  }

  lemma NoNoticeAmong(outbox: map<OutboxKey, OutboxEvent>, ids: seq<EarningID>, m: map<EarningID, Earning>,
          outbox': map<OutboxKey, OutboxEvent>, k: OutboxKey)
    requires Announced(outbox, ids, m, outbox') && k !in outbox && k.id.aggregate.SettlementAggregate?
    ensures k !in outbox'
  {
    assert forall k', id :: IsNewEvent(outbox, m, outbox', k', id) ==> k'.id.aggregate.EarningAggregate?;
    hide IsNewEvent;
  }

  // ----- publishing -----

  /** An event is marked once, with the first time given. */
  lemma PublishAnswers(l: Ledger, op: Op, digest: EarningID -> int, l': Ledger)
    requires op.Publish? && Steps(l, op, digest, l')
    ensures Problem(l, op, digest).None? <==> op.published.tenant != "" && op.now != 0 && op.published in l.outbox
    ensures if Problem(l, op, digest).None? && l.outbox[op.published].published == None
      then l' == l.(outbox := l.outbox[op.published := l.outbox[op.published].(published := Some(op.now))]) else l' == l
  {
  }
}
