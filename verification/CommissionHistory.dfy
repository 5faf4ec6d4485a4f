/** The history of the ledger: journals tell the statuses, events are paid once, and nothing recorded is lost. */
module CommissionHistory {
  import opened Prelude
  import opened Sorting
  import opened CommissionFormula
  import opened CommissionCap
  import opened CommissionLedger
  import opened CommissionRuns
  import opened CommissionBalance

  // ----- replaying journals -----

  datatype Replayed = NoEntries | Told(status: EarningStatus) | Impossible

  /** What an entry makes of the status told by the entries before it. */
  function Tell(before: Replayed, kind: JournalKind): Replayed {
    if kind.AccrualEntry? then if before.NoEntries? then Told(Pending) else Impossible
    else if !before.Told? then Impossible
    else
      var s := before.status;
      if kind.AvailableEntry? && (s.Pending? || s.Held? || s.Available?) then Told(Available)
      else if kind.HeldEntry? && (s.Pending? || s.Available?) then Told(Held)
      else if kind.SettlementEntry? && s.Available? then Told(Settled)
      else if kind.ReversalEntry? && (s.Available? || s.Held?) then Told(Reversed)
      else if kind.RecoveryEntry? && s.Settled? then Told(RecoveryDue)
      else Impossible
  }

  /** The status an earning's journal entries tell in append order, after `before`. */
  function Replay(before: Replayed, journals: seq<Journal>, id: EarningID): Replayed {
    if journals == [] then before
    else
      var last := journals[|journals| - 1];
      var told := Replay(before, journals[..|journals| - 1], id);
      if last.earning == id then Tell(told, last.kind) else told
  }

  /** Claiming an earning for a settlement leaves no entry, so a settling earning still reads as available. */
  function Journaled(status: EarningStatus): EarningStatus { if status.Settling? then Available else status }

  ghost predicate JournalsTell(l: Ledger) {
    forall id :: Replay(NoEntries, l.journals, id) ==
      if id in l.earnings then Told(Journaled(l.earnings[id].status)) else NoEntries
  }

  /** Every entry has the tenant and the amount of its earning. */
  ghost predicate JournalsMatch(l: Ledger) {
    forall j :: j in l.journals ==>
      j.earning in l.earnings && j.tenant == l.earnings[j.earning].tenant && j.amount == l.earnings[j.earning].amount
  }

  lemma {:induction false} ReplayAppend(before: Replayed, a: seq<Journal>, b: seq<Journal>, id: EarningID)
    ensures Replay(before, a + b, id) == Replay(Replay(before, a, id), b, id)
  {
    if b == [] {
      assert a + b == a;
    } else {
      assert (a + b)[..|a + b| - 1] == a + b[..|b| - 1];
      ReplayAppend(before, a, b[..|b| - 1], id);
    }
  }

  lemma {:induction false} ReplayOthers(before: Replayed, journals: seq<Journal>, id: EarningID)
    requires forall i :: 0 <= i < |journals| ==> journals[i].earning != id
    ensures Replay(before, journals, id) == before
  {
    if journals != [] {
      ReplayOthers(before, journals[..|journals| - 1], id);
    }
  }

  lemma {:induction false} ReplayOne(before: Replayed, journals: seq<Journal>, k: nat)
    requires k < |journals| && forall i, j :: 0 <= i < j < |journals| ==> journals[i].earning != journals[j].earning
    ensures Replay(before, journals, journals[k].earning) == Tell(before, journals[k].kind)
  {
    hide Tell;
    var n := |journals| - 1;
    if k == n {
      ReplayOthers(before, journals[..n], journals[n].earning);
    } else {
      ReplayOne(before, journals[..n], k);
    }
  }

  lemma {:induction false} ReplayNew(earnings: seq<Earning>, id: EarningID)
    requires Distinct(EarningKeys(earnings))
    requires forall i :: 0 <= i < |earnings| ==> earnings[i].status.Pending? || earnings[i].status.Available?
    ensures forall i :: 0 <= i < |earnings| && earnings[i].id == id ==>
      Replay(NoEntries, AllNewJournals(earnings), id) == Told(earnings[i].status)
    ensures id !in IDs(earnings) ==> Replay(NoEntries, AllNewJournals(earnings), id) == NoEntries
  {
    if earnings != [] {
      var n := |earnings| - 1;
      assert EarningKeys(earnings[..n]) == EarningKeys(earnings)[..n];
      ReplayNew(earnings[..n], id);
      LastIsNew(earnings);
      ReplayAppend(NoEntries, AllNewJournals(earnings[..n]), NewJournals(earnings[n]), id);
      ReplayNewOne(Replay(NoEntries, AllNewJournals(earnings[..n]), id), earnings[n], id);
      forall i | 0 <= i < n && earnings[i].id == id
        ensures earnings[..n][i] == earnings[i] && id in IDs(earnings[..n])
      {
        assert earnings[..n][i] in earnings[..n];
      }
      hide IDs, Distinct, NewJournals;
    }
  }

  lemma ReplayNewOne(before: Replayed, e: Earning, id: EarningID)
    requires e.status.Pending? || e.status.Available?
    ensures e.id != id ==> Replay(before, NewJournals(e), id) == before
    ensures e.id == id && before.NoEntries? ==> Replay(before, NewJournals(e), id) == Told(e.status)
  {
    var journals := NewJournals(e);
    if e.id != id {
      ReplayOthers(before, journals, id);
    } else if e.status.Available? {
      assert journals[..1] == [JournalOf(e, AccrualEntry)] && journals[..1][..0] == [];
      assert Replay(before, journals[..1], id) == Tell(before, AccrualEntry);
    } else {
      assert journals[..0] == [];
    }
  }

  /** A change of status and its entry agree. */
  lemma ChangeTells(e: Earning, action: Action)
    requires CanChange(e, action) && !action.StartSettling?
    ensures Tell(Told(Journaled(e.status)), ChangeJournal(Changed(e, action), action).kind) ==
      Told(Journaled(Changed(e, action).status))
  {
  }

  lemma MoveKeepsTelling(l: Ledger, earnings: seq<Earning>, action: Action, l': Ledger)
    requires JournalsTell(l) && Moves(l, earnings, action, l') && !action.StartSettling?
    ensures JournalsTell(l')
  {
    MovesApart(l, earnings, action, l');
    var added := ChangeJournals(AllChanged(earnings, action), action);
    AddedJournals(l, earnings, action);
    hide Moves, ChangeJournals, AllChanged, AllCanChange, EntriesFrom, Tell, Journaled, CanChange, Changed,
      ChangeJournal, Replay;
    forall id
      ensures Replay(NoEntries, l'.journals, id) ==
        if id in l'.earnings then Told(Journaled(l'.earnings[id].status)) else NoEntries
    {
      ReplayAppend(NoEntries, l.journals, added, id);
      if id in IDs(earnings) {
        var k :| 0 <= k < |earnings| && earnings[k].id == id;
        assert earnings[k] in earnings;
        ReplayOne(Told(Journaled(l.earnings[id].status)), added, k);
        ChangeTells(earnings[k], action);
      } else {
        OthersUntouched(earnings, added, id, Replay(NoEntries, l.journals, id));
      }
    }
  }

  lemma OthersUntouched(earnings: seq<Earning>, added: seq<Journal>, id: EarningID, told: Replayed)
    requires id !in IDs(earnings) && |added| == |earnings| && forall i :: 0 <= i < |earnings| ==>
      added[i].earning == earnings[i].id
    ensures Replay(told, added, id) == told
  {
    hide Replay;
    assert forall i :: 0 <= i < |added| ==> earnings[i] in earnings;
    ReplayOthers(told, added, id);
  }

  lemma AddedJournals(l: Ledger, earnings: seq<Earning>, action: Action)
    requires AllCanChange(earnings, action) && AreStored(l, earnings)
    ensures var added := ChangeJournals(AllChanged(earnings, action), action);
      |added| == |earnings| &&
      (forall i :: 0 <= i < |earnings| ==>
         added[i] == ChangeJournal(Changed(earnings[i], action), action) && added[i].earning == earnings[i].id &&
         added[i].tenant == earnings[i].tenant && added[i].amount == earnings[i].amount) &&
      (forall i, j :: 0 <= i < j < |added| ==> added[i].earning != added[j].earning) &&
      (forall e :: e in earnings ==> e.id in l.earnings && l.earnings[e.id] == e && CanChange(e, action))
  {
    hide Transition;
    assert forall i :: 0 <= i < |earnings| ==> EarningKeys(earnings)[i] == earnings[i].id;
  }

  lemma MoveKeepsMatching(l: Ledger, earnings: seq<Earning>, action: Action, l': Ledger)
    requires JournalsMatch(l) && Moves(l, earnings, action, l')
    ensures JournalsMatch(l')
  {
    MovesApart(l, earnings, action, l');
    MoveKeepsCores(l.earnings, IDs(earnings), action, l'.earnings);
    AddedJournals(l, earnings, action);
    var added := ChangeJournals(AllChanged(earnings, action), action);
    hide Moves, ChangeJournals, AllChanged, AllCanChange, EntriesFrom, EarningsMove, IDs;
    forall j | j in l'.journals
      ensures j.earning in l'.earnings && j.tenant == l'.earnings[j.earning].tenant &&
        j.amount == l'.earnings[j.earning].amount
    {
      if j in added {
        var i :| 0 <= i < |added| && added[i] == j;
        assert earnings[i] in earnings;
      } else {
        assert j in l.journals;
      }
    }
  }

  // ----- events and their earnings -----

  function KeyOfID(id: EarningID): EventKey { EventKey(id.tenant, id.sourceType, id.sourceID) }

  /** The earning is one of those recorded for its event. */
  ghost predicate IsAccounted(l: Ledger, id: EarningID) {
    KeyOfID(id) in l.events && id in l.events[KeyOfID(id)].earnings
  }

  ghost predicate IsRecordedEvent(m: map<EarningID, Earning>, key: EventKey, r: Recorded) {
    KeyOfEvent(r.fingerprint.event) == key && Distinct(r.earnings) &&
    forall id :: id in r.earnings ==> id in m && KeyOfID(id) == key && id.program == r.fingerprint.program
  }

  /** The stored earnings of an event are exactly those recorded with it. */
  ghost predicate EventsRecorded(l: Ledger) {
    (forall id :: id in l.earnings ==> IsAccounted(l, id)) &&
    (forall key :: key in l.events ==> IsRecordedEvent(l.earnings, key, l.events[key]))
  }

  lemma SameEvents(l: Ledger, l': Ledger)
    requires EventsRecorded(l) && l'.events == l.events && l'.earnings.Keys == l.earnings.Keys
    ensures EventsRecorded(l')
  {
    assert forall id :: id in l.earnings ==> IsAccounted(l, id);
    assert forall key :: key in l.events ==> IsRecordedEvent(l.earnings, key, l.events[key]);
  }

  /** A first commit: new earnings with new entries, and the event recorded for them. */
  ghost predicate Adds(l: Ledger, c: Commit, l': Ledger) {
    EarningsAdded(l, c, l'.earnings) && l'.settlements == l.settlements &&
      l'.journals == l.journals + AllNewJournals(c.earnings) &&
    KeyOfEvent(c.event) !in l.events &&
    l'.events == l.events[KeyOfEvent(c.event) := Recorded(Fingerprint(c.event, c.program), EarningKeys(c.earnings))]
  }

  lemma CommitAdds(l: Ledger, op: Op, l': Ledger)
    requires Commits(l, op, l') && l' != l
    ensures Adds(l, CommitOf(op), l') && Distinct(EarningKeys(CommitOf(op).earnings)) && l.journalIDs <= l'.journalIDs
  {
    CommitAddsEarnings(l, op, l');
    assert CommitOf(op).journals == AllNewJournals(CommitOf(op).earnings) by {
      hide AllNewJournals, NewEarnings, AllNewEvents, Put, FormProblem, VersionsProblem, CommitCollides, EarningsAdded;
    }
    hide EarningsAdded, Put, VersionsProblem, CommitCollides, AllNewJournals, CommitOf;
  }

  lemma CommitKeepsRecorded(l: Ledger, c: Commit, l': Ledger)
    requires EventsRecorded(l) && Adds(l, c, l') && Distinct(EarningKeys(c.earnings))
    ensures EventsRecorded(l')
  {
    var key, r := KeyOfEvent(c.event), Recorded(Fingerprint(c.event, c.program), EarningKeys(c.earnings));
    KeysAndIDs(c.earnings);
    AddedKeys(l, c, l');
    assert l'.events == l.events[key := r] && key !in l.events;
    hide Distinct, EarningKeys, IDs, AllNewJournals, EarningsAdded, EventsRecorded, Adds, KeyOfID;
    EventAdded(l, l', key, r);
  }

  lemma EventAdded(l: Ledger, l': Ledger, key: EventKey, r: Recorded)
    requires EventsRecorded(l) && key !in l.events && l'.events == l.events[key := r] &&
      IsRecordedEvent(l'.earnings, key, r)
    requires forall id :: id in l'.earnings <==> id in l.earnings || id in r.earnings
    ensures EventsRecorded(l')
  {
    hide Distinct, KeyOfEvent;
    forall id | id in l'.earnings
      ensures IsAccounted(l', id)
    {
      assert id in l.earnings ==> IsAccounted(l, id);
    }
    forall k | k in l'.events
      ensures IsRecordedEvent(l'.earnings, k, l'.events[k])
    {
      assert k != key ==> IsRecordedEvent(l.earnings, k, l.events[k]);
    }
  }

  lemma AddedKeys(l: Ledger, c: Commit, l': Ledger)
    requires Adds(l, c, l')
    ensures l'.earnings.Keys == l.earnings.Keys + IDs(c.earnings)
    ensures forall id :: id in IDs(c.earnings) ==> KeyOfID(id) == KeyOfEvent(c.event) && id.program == c.program
  {
    hide IsRecordOf, AllNewJournals;
    assert forall id :: id in IDs(c.earnings) ==> IsNewEarning(l, c, l'.earnings[id], id);
  }

  lemma KeysAndIDs(earnings: seq<Earning>)
    ensures forall id :: id in EarningKeys(earnings) <==> id in IDs(earnings)
  {
    forall id | id in IDs(earnings)
      ensures id in EarningKeys(earnings)
    {
      var i :| 0 <= i < |earnings| && earnings[i].id == id;
      assert EarningKeys(earnings)[i] == id;
    }
  }

  lemma CommitKeepsTelling(l: Ledger, c: Commit, l': Ledger)
    requires JournalsTell(l) && Adds(l, c, l') && Distinct(EarningKeys(c.earnings))
    ensures JournalsTell(l')
  {
    AddedStatuses(l, c, l');
    hide Distinct, Adds, AllNewJournals, Replay, EarningKeys, Journaled;
    assert forall i :: 0 <= i < |c.earnings| ==> Journaled(c.earnings[i].status) == c.earnings[i].status by {
      NewStatuses(c.earnings);
    }
    forall id
      ensures Replay(NoEntries, l'.journals, id) ==
        if id in l'.earnings then Told(Journaled(l'.earnings[id].status)) else NoEntries
    {
      AddedTell(l.journals, c, id);
      if id in IDs(c.earnings) {
        var i :| 0 <= i < |c.earnings| && c.earnings[i].id == id;
        assert l'.earnings[c.earnings[i].id] == c.earnings[i];
      }
    }
  }

  lemma NewStatuses(earnings: seq<Earning>)
    ensures forall i :: 0 <= i < |earnings| && !earnings[i].status.Settling? ==>
      Journaled(earnings[i].status) == earnings[i].status
  {
  }

  lemma AddedTell(journals: seq<Journal>, c: Commit, id: EarningID)
    requires Distinct(EarningKeys(c.earnings))
    requires forall i :: 0 <= i < |c.earnings| ==> c.earnings[i].status.Pending? || c.earnings[i].status.Available?
    ensures var told := Replay(NoEntries, journals, id);
      var after := Replay(NoEntries, journals + AllNewJournals(c.earnings), id);
      (id !in IDs(c.earnings) ==> after == told) &&
      (told.NoEntries? ==> forall i :: 0 <= i < |c.earnings| && c.earnings[i].id == id ==>
        after == Told(c.earnings[i].status))
  {
    hide Distinct, AllNewJournals, Replay, EarningKeys;
    ReplayAppend(NoEntries, journals, AllNewJournals(c.earnings), id);
    if id in IDs(c.earnings) {
      ReplayNew(c.earnings, id);
    } else {
      NoNewJournals(c.earnings, id);
      ReplayOthers(Replay(NoEntries, journals, id), AllNewJournals(c.earnings), id);
    }
  }

  lemma NoNewJournals(earnings: seq<Earning>, id: EarningID)
    requires id !in IDs(earnings)
    ensures forall i :: 0 <= i < |AllNewJournals(earnings)| ==> AllNewJournals(earnings)[i].earning != id
  {
    hide AllNewJournals;
    forall i | 0 <= i < |AllNewJournals(earnings)|
      ensures AllNewJournals(earnings)[i].earning != id
    {
      NewJournalsOf(earnings, AllNewJournals(earnings)[i]);
    }
  }

  lemma AddedStatuses(l: Ledger, c: Commit, l': Ledger)
    requires Adds(l, c, l')
    ensures l'.journals == l.journals + AllNewJournals(c.earnings) &&
      l'.earnings.Keys == l.earnings.Keys + IDs(c.earnings)
    ensures forall id :: id in l.earnings ==> l'.earnings[id] == l.earnings[id] && id !in IDs(c.earnings)
    ensures forall i :: 0 <= i < |c.earnings| ==>
      l'.earnings[c.earnings[i].id] == c.earnings[i] &&
        (c.earnings[i].status.Pending? || c.earnings[i].status.Available?)
  {
    hide IsRecordOf, AllNewJournals;
    assert forall id :: id in IDs(c.earnings) ==> IsNewEarning(l, c, l'.earnings[id], id);
    forall i | 0 <= i < |c.earnings|
      ensures c.earnings[i].status.Pending? || c.earnings[i].status.Available?
    {
      assert c.earnings[i] in c.earnings && c.earnings[i].id in IDs(c.earnings);
    }
  }

  lemma CommitKeepsMatching(l: Ledger, c: Commit, l': Ledger)
    requires JournalsMatch(l) && Adds(l, c, l')
    ensures JournalsMatch(l')
  {
    AddedStatuses(l, c, l');
    hide Adds, AllNewJournals, IDs;
    forall j | j in l'.journals
      ensures j.earning in l'.earnings && j.tenant == l'.earnings[j.earning].tenant &&
        j.amount == l'.earnings[j.earning].amount
    {
      if j in AllNewJournals(c.earnings) {
        NewJournalsOf(c.earnings, j);
        var e :| e in c.earnings && j == JournalOf(e, j.kind);
        var i :| 0 <= i < |c.earnings| && c.earnings[i] == e;
      } else {
        assert j in l.journals;
      }
    }
  }
}
