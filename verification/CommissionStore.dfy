/**
 The in-memory commission store. Every operation is proved against the ledger functions: when it reports an
 error the whole store is as it was, otherwise it is exactly the effect of the operation.
 */
module CommissionStore {
  import opened Prelude
  import opened Sorting
  import opened CommissionFormula
  import opened CommissionCap
  import opened CommissionLedger

  /** A changed earning with the journal entry and the event that go with it. */
  datatype Change = Change(earning: Earning, journal: Journal, outbox: OutboxEvent)

  function NewChange(changed: Earning, action: Action): Change {
    Change(changed, ChangeJournal(changed, action), ChangeEvent(changed))
  }

  function EarningsIn(changes: seq<Change>): seq<Earning> {
    seq(|changes|, i requires 0 <= i < |changes| => changes[i].earning)
  }

  function JournalsIn(changes: seq<Change>): seq<Journal> {
    seq(|changes|, i requires 0 <= i < |changes| => changes[i].journal)
  }

  function EventsIn(changes: seq<Change>): seq<OutboxEvent> {
    seq(|changes|, i requires 0 <= i < |changes| => changes[i].outbox)
  }

  function AllChanges(earnings: seq<Earning>, action: Action): seq<Change>
    requires AllCanChange(earnings, action)
  {
    seq(|earnings|, i requires 0 <= i < |earnings| => NewChange(Changed(earnings[i], action), action))
  }

  lemma ChangesParts(earnings: seq<Earning>, action: Action)
    requires AllCanChange(earnings, action)
    ensures EarningsIn(AllChanges(earnings, action)) == AllChanged(earnings, action)
    ensures JournalsIn(AllChanges(earnings, action)) == ChangeJournals(AllChanged(earnings, action), action)
    ensures EventsIn(AllChanges(earnings, action)) == ChangeEvents(AllChanged(earnings, action))
  {
  }

  /** Every earning is stored under its own identifier, with a valid amount. */
  ghost predicate EarningsKept(m: map<EarningID, Earning>) {
    forall id :: id in m ==> m[id].id == id && m[id].amount.minor >= 0
  }

  ghost predicate WellKept(l: Ledger) { EarningsKept(l.earnings) }

  lemma {:induction false} PutKeeps(m: map<EarningID, Earning>, s: seq<Earning>)
    requires EarningsKept(m) && forall i :: 0 <= i < |s| ==> s[i].amount.minor >= 0
    ensures EarningsKept(Put(m, s, EarningKey))
  {
    if s != [] {
      PutKeeps(m, s[..|s| - 1]);
    }
  }

  // ----- building and checking a commit -----

  method BuildEventEntries(event: Event, program: Program, template: Template, calculations: seq<Calculation>, now: int)
    returns (earnings: seq<Earning>, journals: seq<Journal>, outbox: seq<OutboxEvent>)
    ensures earnings == NewEarnings(event, program, template, calculations, now)
    ensures journals == AllNewJournals(earnings) && outbox == AllNewEvents(earnings)
  {
    hide AllNewJournals, AllNewEvents, NewJournals, NewEvent;
    var availableAt := event.occurredAt + template.freezePeriod;
    var status := Pending;
    if availableAt <= now {
      status := Available;
    }
    earnings, journals, outbox := [], [], [];
    assert journals == AllNewJournals([]) && outbox == AllNewEvents([]) by { NoEntries(); }
    var i := 0;
    while i < |calculations|
      invariant 0 <= i <= |calculations|
      invariant earnings == NewEarnings(event, program, template, calculations[..i], now)
      invariant journals == AllNewJournals(earnings) && outbox == AllNewEvents(earnings)
    {
      var c := calculations[i];
      var id := EarningID(event.tenant, event.sourceType, event.sourceID, program.id, c.slot, c.beneficiary);
      var earning :=
        Earning(id, event.tenant, program.id, template.id, template.version, event.sourceType, event.sourceID, c.slot,
                             c.beneficiary, c.amount, status, availableAt, 1);
      assert earning == NewEarning(event, program, template, c, now);
      EntriesNext(earnings, earning);
      earnings := earnings + [earning];
      journals := journals + [Journal(JournalID(id, AccrualEntry, 1), event.tenant, id, AccrualEntry, c.amount)];
      if status.Available? {
        journals := journals + [Journal(JournalID(id, AvailableEntry, 1), event.tenant, id, AvailableEntry, c.amount)];
      }
      outbox := outbox + [OutboxEvent(OutboxID(event.tenant, EarningAggregate(id), StatusOnly(status), 1), event.tenant,
                                      EarningEvent(status), EarningAggregate(id), None)];
      i := i + 1;
    }
    assert calculations[..i] == calculations;
  }

  lemma NoEntries()
    ensures AllNewJournals([]) == [] && AllNewEvents([]) == []
  {
  }

  lemma EntriesNext(earnings: seq<Earning>, e: Earning)
    ensures AllNewJournals(earnings + [e]) == AllNewJournals(earnings) + NewJournals(e)
    ensures AllNewEvents(earnings + [e]) == AllNewEvents(earnings) + [NewEvent(e)]
    ensures NewJournals(e) ==
      [JournalOf(e, AccrualEntry)] + if e.status.Available? then [JournalOf(e, AvailableEntry)] else []
    ensures NewEvent(e).id == OutboxID(e.tenant, EarningAggregate(e.id), StatusOnly(e.status), e.version)
    ensures NewEvent(e) == OutboxEvent(NewEvent(e).id, e.tenant, EarningEvent(e.status), EarningAggregate(e.id), None)
  {
    assert (earnings + [e])[..|earnings|] == earnings;
  }

  method FindDuplicate<T(==)>(s: seq<T>) returns (found: bool)
    ensures found <==> !Distinct(s)
  {
    var seen: set<T> := {};
    var i := 0;
    while i < |s|
      invariant 0 <= i <= |s| && (forall x :: x in seen <==> x in s[..i]) && Distinct(s[..i])
    {
      if s[i] in seen {
        assert exists j :: 0 <= j < i && s[j] == s[i];
        return true;
      }
      seen := seen + {s[i]};
      i := i + 1;
    }
    assert s[..i] == s;
    return false;
  }

  method ValidateEventCommit(c: Commit) returns (problem: Option<LedgerError>)
    ensures problem == FormProblem(c)
  {
    hide ValidEvent, BelongsTo, JournalBelongsTo;
    if !ValidEvent(c.event) {
      return Some(InvalidCommissionEvent);
    }
    var nothing := |c.earnings| == 0 && |c.journals| == 0 && |c.outbox| == 0;
    if c.program == "" || c.template == "" || c.programVersion <= 0 || c.templateVersion <= 0 ||
      c.attributionVersions.None? ||
       (!nothing && (|c.earnings| == 0 || |c.journals| == 0 || |c.outbox| == 0)) {
      return Some(InvalidCommit);
    }
    var i := 0;
    while i < |c.earnings|
      invariant 0 <= i <= |c.earnings| && forall e :: e in c.earnings[..i] ==> BelongsTo(e, c)
    {
      if !BelongsTo(c.earnings[i], c) {
        return Some(InvalidEarning);
      }
      i := i + 1;
    }
    assert c.earnings[..i] == c.earnings;
    var duplicate := FindDuplicate(EarningKeys(c.earnings));
    if duplicate {
      return Some(InvalidEarning);
    }
    i := 0;
    while i < |c.journals|
      invariant 0 <= i <= |c.journals| && forall j :: j in c.journals[..i] ==> JournalBelongsTo(j, c)
    {
      if !JournalBelongsTo(c.journals[i], c) {
        return Some(InvalidCommit);
      }
      i := i + 1;
    }
    assert c.journals[..i] == c.journals;
    duplicate := FindDuplicate(JournalKeys(c.journals));
    if duplicate {
      return Some(InvalidCommit);
    }
    i := 0;
    while i < |c.outbox|
      invariant 0 <= i <= |c.outbox| && forall o :: o in c.outbox[..i] ==> o.tenant == c.event.tenant
    {
      if c.outbox[i].tenant != c.event.tenant {
        return Some(InvalidCommit);
      }
      i := i + 1;
    }
    assert c.outbox[..i] == c.outbox;
    duplicate := FindDuplicate(seq(|c.outbox|, i requires 0 <= i < |c.outbox| => c.outbox[i].id));
    return if duplicate then Some(InvalidCommit) else None;
  }

  // ----- the store -----

  class MemoryStore {
    var templates: map<(string, int64), Template>
    var programs: map<(string, string), Program>
    var attributions: map<(string, string, string), Attribution>
    var earnings: map<EarningID, Earning>
    var journals: seq<Journal>
    var journalIDs: set<JournalID>
    var outbox: map<OutboxKey, OutboxEvent>
    var events: map<EventKey, Recorded>
    var settlements: map<SettlementKey, Settlement>
    /** The order of the identifiers' texts. */
    const digest: EarningID -> int

    ghost predicate Valid()
      reads this
    {
      IsDigest(digest) && WellKept(Value())
    }

    function Value(): Ledger
      reads this
    {
      Ledger(earnings, journals, journalIDs, outbox, events, settlements)
    }

    function Controls(): Control
      reads this
    {
      Control(templates, programs, attributions)
    }

    constructor (digest: EarningID -> int)
      requires IsDigest(digest)
      ensures Valid() && Value() == EmptyLedger() && Controls() == Control(map[], map[], map[])
      ensures this.digest == digest
    {
      this.digest := digest;
      templates, programs, attributions := map[], map[], map[];
      earnings, journals, journalIDs, outbox, events, settlements := map[], [], {}, map[], map[], map[];
    }

    method ValidateCommitVersions(c: Commit) returns (problem: Option<LedgerError>)
      ensures problem == VersionsProblem(Controls(), c)
    {
      if (c.event.tenant, c.program) !in programs {
        return Some(ProgramNotFound);
      }
      var program := programs[(c.event.tenant, c.program)];
      if program.version != c.programVersion {
        return Some(VersionConflict);
      }
      if !program.status.ActiveProgram? {
        return Some(ProgramNotActive);
      }
      if program.templateID != c.template || program.templateVersion != c.templateVersion {
        return Some(VersionConflict);
      }
      var tracked := Tracked(c);
      var i := 0;
      while i < |program.rules|
        invariant 0 <= i <= |program.rules|
        invariant forall j :: 0 <= j < i ==>
          (program.rules[j].slot in tracked &&
           tracked[program.rules[j].slot] ==
             AttributionVersion(Controls(), c.event.tenant, program.id, program.rules[j].slot))
      {
        var slot := program.rules[i].slot;
        var current: int64 := 0;
        if (c.event.tenant, program.id, slot) in attributions {
          current := attributions[(c.event.tenant, program.id, slot)].version;
        }
        if slot !in tracked || current != tracked[slot] {
          return Some(VersionConflict);
        }
        i := i + 1;
      }
      if (c.template, c.templateVersion) !in templates {
        return Some(TemplateNotFound);
      }
      return if templates[(c.template, c.templateVersion)].status.ActiveTemplate? then None
        else Some(TemplateNotActive);
    }

    method CloneEarnings(ids: seq<EarningID>) returns (result: Result<seq<Earning>, LedgerError>)
      ensures AllStored(Value(), ids) ==> result == Ok(StoredEarnings(Value(), ids))
      ensures !AllStored(Value(), ids) ==> result == Err(InvalidEarning)
    {
      var stored := [];
      var i := 0;
      while i < |ids|
        invariant 0 <= i <= |ids| && |stored| == i
        invariant forall j :: 0 <= j < i ==> ids[j] in earnings && stored[j] == earnings[ids[j]]
      {
        if ids[i] !in earnings {
          return Err(InvalidEarning);
        }
        stored := stored + [earnings[ids[i]]];
        i := i + 1;
      }
      assert AllStored(Value(), ids);
      assert stored == StoredEarnings(Value(), ids);
      return Ok(stored);
    }

    method FindCommitCollision(c: Commit) returns (found: bool)
      ensures found <==> CommitCollides(Value(), c)
    {
      var i := 0;
      while i < |c.earnings|
        invariant 0 <= i <= |c.earnings| && forall j :: 0 <= j < i ==> c.earnings[j].id !in earnings
      {
        if c.earnings[i].id in earnings {
          assert EarningKeys(c.earnings)[i] in earnings;
          return true;
        }
        i := i + 1;
      }
      i := 0;
      while i < |c.outbox|
        invariant 0 <= i <= |c.outbox| && forall j :: 0 <= j < i ==> KeyOf(c.outbox[j]) !in outbox
      {
        if KeyOf(c.outbox[i]) in outbox {
          assert OutboxKeys(c.outbox)[i] in outbox;
          return true;
        }
        i := i + 1;
      }
      i := 0;
      while i < |c.journals|
        invariant 0 <= i <= |c.journals| && forall j :: 0 <= j < i ==> c.journals[j].id !in journalIDs
      {
        if c.journals[i].id in journalIDs {
          assert JournalKeys(c.journals)[i] in journalIDs;
          return true;
        }
        i := i + 1;
      }
      return false;
    }

    method StoreEarnings(added: seq<Earning>)
      modifies this`earnings
      ensures earnings == Put(old(earnings), added, EarningKey)
    {
      var i := 0;
      while i < |added|
        invariant 0 <= i <= |added| && earnings == Put(old(earnings), added[..i], EarningKey)
      {
        PutNext(old(earnings), added, EarningKey, i);
        earnings := earnings[added[i].id := added[i]];
        i := i + 1;
      }
      assert added[..i] == added;
    }

    method AppendJournals(added: seq<Journal>)
      modifies this`journals, this`journalIDs
      ensures journals == old(journals) + added
      ensures journalIDs == old(journalIDs) + (set id | id in JournalKeys(added))
    {
      var i := 0;
      while i < |added|
        invariant 0 <= i <= |added| && journals == old(journals) + added[..i]
        invariant forall id :: id in journalIDs <==> id in old(journalIDs) || id in JournalKeys(added)[..i]
      {
        journals := journals + [added[i]];
        journalIDs := journalIDs + {added[i].id};
        assert JournalKeys(added)[..i + 1] == JournalKeys(added)[..i] + [added[i].id];
        i := i + 1;
      }
      assert JournalKeys(added)[..i] == JournalKeys(added);
    }

    method StoreOutbox(added: seq<OutboxEvent>)
      modifies this`outbox
      ensures outbox == Put(old(outbox), added, KeyOf)
    {
      var i := 0;
      while i < |added|
        invariant 0 <= i <= |added| && outbox == Put(old(outbox), added[..i], KeyOf)
      {
        PutNext(old(outbox), added, KeyOf, i);
        outbox := outbox[KeyOf(added[i]) := added[i]];
        i := i + 1;
      }
      assert added[..i] == added;
    }

    method CommitEvent(c: Commit) returns (result: Result<seq<Earning>, LedgerError>)
      requires Valid()
      modifies this
      ensures Valid() && Controls() == old(Controls())
      ensures match CommitProblem(old(Value()), old(Controls()), c)
              case Some(error) => result == Err(error) && Value() == old(Value())
              case None =>
                (Value() == CommitEffect(old(Value()), c) && AllStored(Value(), CommitIDs(old(Value()), c)) &&
                 result == Ok(StoredEarnings(Value(), CommitIDs(old(Value()), c))))
    {
      hide FormProblem, VersionsProblem, CommitCollides, Put, EarningsKept, IsDigest;
      var problem := ValidateEventCommit(c);
      if problem.Some? {
        return Err(problem.value);
      }
      var key := KeyOfEvent(c.event);
      var fingerprint := Fingerprint(c.event, c.program);
      if key in events {
        if events[key].fingerprint != fingerprint {
          return Err(EventConflict);
        }
        result := CloneEarnings(events[key].earnings);
        return;
      }
      problem := ValidateCommitVersions(c);
      if problem.Some? {
        return Err(problem.value);
      }
      var collides := FindCommitCollision(c);
      if collides {
        return Err(EventConflict);
      }
      CommitStores(Value(), c);
      StoreEarnings(c.earnings);
      AppendJournals(c.journals);
      StoreOutbox(c.outbox);
      events := events[key := Recorded(fingerprint, EarningKeys(c.earnings))];
      result := CloneEarnings(EarningKeys(c.earnings));
    }

    // ----- changing earnings -----

    method ValidateOutboxEvents(added: seq<OutboxEvent>) returns (conflict: bool)
      ensures conflict <==> (exists key :: key in OutboxKeys(added) && key in outbox) || !Distinct(OutboxKeys(added))
    {
      var i := 0;
      while i < |added|
        invariant 0 <= i <= |added| && forall j :: 0 <= j < i ==> KeyOf(added[j]) !in outbox
      {
        if KeyOf(added[i]) in outbox {
          assert OutboxKeys(added)[i] in outbox;
          return true;
        }
        i := i + 1;
      }
      conflict := FindDuplicate(OutboxKeys(added));
    }

    method ValidateEarningTransitions(changes: seq<Change>) returns (conflict: bool)
      ensures conflict <==> Collides(Value(), JournalsIn(changes), EventsIn(changes))
    {
      var i := 0;
      while i < |changes|
        invariant 0 <= i <= |changes| && forall j :: 0 <= j < i ==> changes[j].journal.id !in journalIDs
      {
        if changes[i].journal.id in journalIDs {
          assert JournalKeys(JournalsIn(changes))[i] in journalIDs;
          return true;
        }
        i := i + 1;
      }
      conflict := FindDuplicate(JournalKeys(JournalsIn(changes)));
      if !conflict {
        conflict := ValidateOutboxEvents(EventsIn(changes));
      }
    }

    /** The source would stop here on an event that exists already; validation has ruled that out. */
    method AppendOutbox(event: OutboxEvent) returns (error: Option<LedgerError>)
      modifies this`outbox
      ensures KeyOf(event) in old(outbox) ==> error == Some(EventConflict) && outbox == old(outbox)
      ensures KeyOf(event) !in old(outbox) ==> error.None? && outbox == old(outbox)[KeyOf(event) := event]
    {
      if KeyOf(event) in outbox {
        return Some(EventConflict);
      }
      outbox := outbox[KeyOf(event) := event];
      return None;
    }

    method AppendEarningTransition(change: Change) returns (error: Option<LedgerError>)
      modifies this`journals, this`journalIDs, this`outbox
      ensures journals == old(journals) + [change.journal] && journalIDs == old(journalIDs) + {change.journal.id}
      ensures KeyOf(change.outbox) in old(outbox) ==> error == Some(EventConflict) && outbox == old(outbox)
      ensures KeyOf(change.outbox) !in old(outbox) ==>
        error.None? && outbox == old(outbox)[KeyOf(change.outbox) := change.outbox]
    {
      journals := journals + [change.journal];
      journalIDs := journalIDs + {change.journal.id};
      error := AppendOutbox(change.outbox);
    }

    method ApplyEarningTransitions(changes: seq<Change>) returns (error: Option<LedgerError>)
      requires !Collides(Value(), JournalsIn(changes), EventsIn(changes))
      modifies this`earnings, this`journals, this`journalIDs, this`outbox
      ensures error.None?
      ensures Value() == Post(old(Value()), EarningsIn(changes), JournalsIn(changes), EventsIn(changes))
    {
      NoCollision(Value(), JournalsIn(changes), EventsIn(changes));
      assert forall j :: 0 <= j < |changes| ==> EventsIn(changes)[j] == changes[j].outbox;
      hide Collides, Put, Distinct;
      StoreEarnings(EarningsIn(changes));
      error := AppendEarningTransitions(changes);
    }

    /** The appending loop of ApplyEarningTransitions. */
    method AppendEarningTransitions(changes: seq<Change>) returns (error: Option<LedgerError>)
      requires forall j :: 0 <= j < |changes| ==> KeyOf(changes[j].outbox) !in outbox
      requires forall i, j :: 0 <= i < j < |changes| ==> KeyOf(changes[i].outbox) != KeyOf(changes[j].outbox)
      modifies this`journals, this`journalIDs, this`outbox
      ensures error.None? && journals == old(journals) + JournalsIn(changes)
      ensures journalIDs == old(journalIDs) + set id | id in JournalKeys(JournalsIn(changes))
      ensures outbox == Put(old(outbox), EventsIn(changes), KeyOf)
    {
      hide Put, KeyOf;
      ghost var added, entries := EventsIn(changes), JournalsIn(changes);
      ghost var keys := JournalKeys(entries);
      PutNothing(outbox, added, KeyOf);
      var i := 0;
      while i < |changes|
        invariant 0 <= i <= |changes|
        invariant journals == old(journals) + entries[..i]
        invariant journalIDs == old(journalIDs) + set id | id in keys[..i]
        invariant outbox == Put(old(outbox), added[..i], KeyOf)
        invariant forall j :: i <= j < |changes| ==> KeyOf(changes[j].outbox) !in outbox
      {
        PutNext(old(outbox), added, KeyOf, i);
        assert keys[..i + 1] == keys[..i] + [changes[i].journal.id];
        assert entries[..i + 1] == entries[..i] + [changes[i].journal];
        error := AppendEarningTransition(changes[i]);
        if error.Some? {
          return;
        }
        i := i + 1;
      }
      assert keys[..i] == keys && entries[..i] == entries && added[..i] == added;
      return None;
    }

    method TransitionEarning(tenant: string, id: EarningID, expected: int, action: Action, now: int)
      returns (result: Result<Earning, LedgerError>)
      requires Valid()
      modifies this
      ensures Valid() && Controls() == old(Controls())
      ensures match TransitionProblem(old(Value()), tenant, id, expected, action, now)
              case Some(error) => result == Err(error) && Value() == old(Value())
              case None =>
                (Value() == ChangeEffect(old(Value()), [old(earnings)[id]], action) &&
                 result == Ok(Changed(old(earnings)[id], action)))
    {
      hide Collides, Post;
      if tenant == "" || expected <= 0 || now == 0 || !IsManual(action) {
        return Err(InvalidEarning);
      }
      if id !in earnings || earnings[id].tenant != tenant {
        return Err(EarningNotFound);
      }
      var earning := earnings[id];
      if earning.version != expected {
        return Err(VersionConflict);
      }
      var next := Transition(earning.status, action);
      if next.None? {
        return Err(InvalidEarningTransition);
      }
      ghost var before := [earning];
      assert CanChange(earning, action);
      earning := earning.(status := next.value, version := earning.version + 1);
      var changes := [NewChange(earning, action)];
      assert changes == AllChanges(before, action);
      ChangesParts(before, action);
      var conflict := ValidateEarningTransitions(changes);
      if conflict {
        return Err(EventConflict);
      }
      ChangeKeeps(Value(), before, action);
      var error := ApplyEarningTransitions(changes);
      return Ok(earning);
    }

    /** The due earnings in some order, as a map's entries come. */
    method CollectDue(now: int) returns (due: seq<Earning>)
      requires Valid()
      ensures Distinct(due)
      ensures forall e :: e in due ==> IsDue(e, now) && e.id in earnings && earnings[e.id] == e
      ensures forall id :: id in earnings && IsDue(earnings[id], now) ==> earnings[id] in due
    {
      due := [];
      var keys := earnings.Keys;
      while keys != {}
        invariant keys <= earnings.Keys && Distinct(due)
        invariant forall e :: e in due ==> IsDue(e, now) && e.id in earnings && e.id !in keys && earnings[e.id] == e
        invariant forall id :: id in earnings && id !in keys && IsDue(earnings[id], now) ==> earnings[id] in due
        decreases |keys|
      {
        var id :| id in keys;
        if IsDue(earnings[id], now) {
          due := due + [earnings[id]];
        }
        keys := keys - {id};
      }
    }

    method MakeAvailableDue(now: int, limit: int)
      returns (result: Result<seq<Earning>, LedgerError>, ghost due: seq<Earning>)
      requires Valid()
      modifies this
      ensures Valid() && Controls() == old(Controls())
      ensures IsDueList(old(Value()), now, digest, due) && AllCanChange(due, MakeAvailable)
      ensures match DueProblem(old(Value()), now, limit, due)
              case Some(error) => result == Err(error) && Value() == old(Value())
              case None =>
                (limit > 0 && AllCanChange(Front(due, limit), MakeAvailable) &&
                 Value() == ChangeEffect(old(Value()), Front(due, limit), MakeAvailable) &&
                 result == Ok(AllChanged(Front(due, limit), MakeAvailable)))
    {
      hide Collides, Post;
      var listed := CollectDue(now);
      listed := SortDue(listed);
      due := listed;
      if now == 0 || limit <= 0 {
        return Err(InvalidEarning), due;
      }
      var front := if |listed| > limit then listed[..limit] else listed;
      FrontCanChange(due, limit);
      var changes := CollectReleases(front);
      ChangesParts(front, MakeAvailable);
      var conflict := ValidateEarningTransitions(changes);
      if conflict {
        return Err(EventConflict), due;
      }
      ChangeKeeps(Value(), front, MakeAvailable);
      var error := ApplyEarningTransitions(changes);
      return Ok(EarningsIn(changes)), due;
    }

    /** The changes that make some due earnings available. */
    method CollectReleases(front: seq<Earning>) returns (changes: seq<Change>)
      requires AllCanChange(front, MakeAvailable) && forall i :: 0 <= i < |front| ==>
        front[i].id in earnings && earnings[front[i].id] == front[i]
      ensures changes == AllChanges(front, MakeAvailable)
    {
      hide Transition;
      changes := [];
      var i := 0;
      while i < |front|
        invariant 0 <= i <= |front| && |changes| == i
        invariant forall j :: 0 <= j < i ==> changes[j] == NewChange(Changed(front[j], MakeAvailable), MakeAvailable)
      {
        var earning := earnings[front[i].id];
        assert CanChange(front[i], MakeAvailable);
        var next := Transition(earning.status, MakeAvailable);
        earning := earning.(status := next.value, version := earning.version + 1);
        changes := changes + [NewChange(earning, MakeAvailable)];
        i := i + 1;
      }
    }

    /** `sort.Slice` with the comparison of due earnings. */
    method SortDue(unsorted: seq<Earning>) returns (sorted: seq<Earning>)
      requires Distinct(unsorted)
      ensures IsSorted(sorted, DueOrder(digest)) && Distinct(sorted) && forall e :: e in sorted <==> e in unsorted
    {
      sorted := Sort(unsorted, DueOrder(digest));
      SortSorts(unsorted, DueOrder(digest));
      DistinctPermutation(unsorted, sorted);
    }

    // ----- settlements -----

    method SumClaimed(s: Settlement, versions: map<EarningID, int>) returns (problem: Option<LedgerError>)
      requires Valid()
      ensures problem == ClaimProblem(Value(), s, versions, Sort(s.earnings, ByDigest(digest)), 0)
    {
      var ids := Sort(s.earnings, ByDigest(digest));
      hide Sort;
      var total: int64 := 0;
      var i := 0;
      assert ids[0..] == ids;
      while i < |ids|
        invariant 0 <= i <= |ids| && 0 <= total
        invariant ClaimProblem(Value(), s, versions, ids, 0) ==
          ClaimProblem(Value(), s, versions, ids[i..], total as int)
      {
        assert ids[i..][0] == ids[i] && ids[i..][1..] == ids[i + 1..];
        if !IsClaimable(Value(), s, versions, ids[i]) {
          return Some(EarningUnavailable);
        }
        var earning := earnings[ids[i]];
        if earning.amount.minor > MAX_INT64 - total {
          return Some(InvalidSettlement);
        }
        total := total + earning.amount.minor;
        i := i + 1;
      }
      return if total != s.amount.minor then Some(InvalidSettlement) else None;
    }

    method StartSettlement(s: Settlement, versions: map<EarningID, int>, now: int)
      returns (result: Result<Settlement, LedgerError>)
      requires Valid()
      modifies this
      ensures Valid() && Controls() == old(Controls())
      ensures match StartProblem(old(Value()), s, versions, now, digest)
              case Some(error) => result == Err(error) && Value() == old(Value())
              case None =>
                (AllStored(old(Value()), s.earnings) &&
                  AllCanChange(StoredEarnings(old(Value()), s.earnings), StartSettling) &&
                 Value() == StartEffect(old(Value()), s) && result == Ok(s))
    {
      hide ClaimProblem, Sort, Put, SettlementNotice, WellKept;
      if !ValidSettlement(s, versions, now) {
        return Err(InvalidSettlement);
      }
      if KeyOfSettlement(s) in settlements {
        return Err(SettlementAlreadyExists);
      }
      var problem := SumClaimed(s, versions);
      if problem.Some? {
        return Err(problem.value);
      }
      if KeyOf(SettlementNotice(s)) in outbox {
        return Err(EventConflict);
      }
      ClaimsCanChange(Value(), s, versions, digest);
      ghost var claimed := StoredEarnings(Value(), s.earnings);
      StoredAreKept(Value(), s.earnings);
      ChangeKeeps(Value(), claimed, StartSettling);
      SettleEarnings(s);
      settlements := settlements[KeyOfSettlement(s) := s];
      var error := AppendOutbox(SettlementNotice(s));
      KeptEarnings(Value());
      return Ok(s);
    }

    /** The claiming loop of StartSettlement. */
    method SettleEarnings(s: Settlement)
      requires Valid() && Distinct(s.earnings) && AllStored(Value(), s.earnings)
      requires AllCanChange(StoredEarnings(Value(), s.earnings), StartSettling)
      modifies this`earnings
      ensures earnings ==
        Put(old(earnings), AllChanged(StoredEarnings(old(Value()), s.earnings), StartSettling), EarningKey)
    {
      hide Put, Transition;
      ghost var claimed := StoredEarnings(Value(), s.earnings);
      ghost var changed := AllChanged(claimed, StartSettling);
      PutNothing(earnings, changed, EarningKey);
      var i := 0;
      while i < |s.earnings|
        invariant 0 <= i <= |s.earnings| && earnings == Put(old(earnings), changed[..i], EarningKey)
        invariant forall j :: i <= j < |s.earnings| ==>
          s.earnings[j] in earnings && earnings[s.earnings[j]] == claimed[j]
      {
        PutNext(old(earnings), changed, EarningKey, i);
        var earning := earnings[s.earnings[i]];
        assert CanChange(claimed[i], StartSettling);
        var next := Transition(earning.status, StartSettling);
        earnings := earnings[s.earnings[i] := earning.(status := next.value, version := earning.version + 1)];
        i := i + 1;
      }
      assert changed[..i] == changed;
    }

    method FinishSettlement(key: SettlementKey, expected: int, settled: bool, reference: string, now: int)
      returns (result: Result<Settlement, LedgerError>)
      requires Valid()
      modifies this
      ensures Valid() && Controls() == old(Controls())
      ensures match FinishProblem(old(Value()), key, expected, settled, reference, now)
              case Some(error) => result == Err(error) && Value() == old(Value())
              case None =>
                (key in old(settlements) && Value() == FinishEffect(old(Value()), key, settled, reference) &&
                 key in settlements && result == Ok(settlements[key]))
    {
      hide Collides, Post, SettlementNotice, WellKept;
      if key.tenant == "" || key.id == "" || expected <= 0 || now == 0 {
        return Err(InvalidSettlement);
      }
      if key !in settlements {
        return Err(SettlementNotFound);
      }
      var batch := settlements[key];
      if !batch.status.Submitted? {
        return if IsRepeat(batch, settled, reference) then Ok(batch) else Err(SettlementOutcomeConflict);
      }
      if batch.version != expected {
        return Err(VersionConflict);
      }
      var changes := CollectOutcomes(batch, key.tenant, OutcomeAction(settled));
      if changes.Err? {
        return Err(changes.error);
      }
      ghost var before := StoredEarnings(Value(), batch.earnings);
      StoredAreKept(Value(), batch.earnings);
      ChangesParts(before, OutcomeAction(settled));
      var conflict := ValidateEarningTransitions(changes.value);
      if conflict {
        return Err(EventConflict);
      }
      var completed := Completed(batch, settled, reference);
      if KeyOf(SettlementNotice(completed)) in outbox {
        return Err(EventConflict);
      }
      RecordOutcome(key, completed, changes.value, before, OutcomeAction(settled));
      return Ok(completed);
    }

    /** The writes of FinishSettlement, after everything has been validated. */
    method RecordOutcome(key: SettlementKey, completed: Settlement, changes: seq<Change>, ghost before: seq<Earning>,
            ghost action: Action)
      requires Valid() && AllCanChange(before, action) && changes == AllChanges(before, action)
      requires forall i :: 0 <= i < |before| ==> before[i].amount.minor >= 0
      requires !ChangeCollides(Value(), before, action) && KeyOf(SettlementNotice(completed)) !in outbox
      modifies this
      ensures Valid() && Controls() == old(Controls())
      ensures Value() == var changed := ChangeEffect(old(Value()), before, action);
        changed.(settlements := old(settlements)[key := completed],
                 outbox := changed.outbox[KeyOf(SettlementNotice(completed)) := SettlementNotice(completed)])
    {
      hide Collides, Post, SettlementNotice, WellKept, AllChanges;
      ChangesParts(before, action);
      ChangeKeeps(Value(), before, action);
      SettlementNoticeApart(Value(), before, action, completed);
      ghost var l := Value();
      var error := ApplyEarningTransitions(changes);
      assert Value() == ChangeEffect(l, before, action);
      assert WellKept(Value());
      settlements := settlements[key := completed];
      SameEarningsKept(ChangeEffect(l, before, action), Value());
      error := AppendOutbox(SettlementNotice(completed));
      SameEarningsKept(ChangeEffect(l, before, action), Value());
    }

    /** The changes of a batch's earnings when its outcome is known. */
    method CollectOutcomes(batch: Settlement, tenant: string, action: Action)
      returns (changes: Result<seq<Change>, LedgerError>)
      requires Valid() && (action.Settle? || action.RejectSettling?)
      ensures changes.Ok? <==> AllSettling(Value(), batch, tenant)
      ensures changes.Ok? ==> changes.value == AllChanges(StoredEarnings(Value(), batch.earnings), action)
      ensures changes.Err? ==> changes.error == EarningUnavailable
    {
      var collected: seq<Change> := [];
      var i := 0;
      while i < |batch.earnings|
        invariant 0 <= i <= |batch.earnings| && |collected| == i
        invariant forall j :: 0 <= j < i ==> IsSettling(Value(), tenant, batch.earnings[j])
        invariant forall j :: 0 <= j < i ==>
          collected[j] == NewChange(Changed(earnings[batch.earnings[j]], action), action)
      {
        if !IsSettling(Value(), tenant, batch.earnings[i]) {
          return Err(EarningUnavailable);
        }
        var earning := earnings[batch.earnings[i]];
        var next := Transition(earning.status, action);
        earning := earning.(status := next.value, version := earning.version + 1);
        collected := collected + [NewChange(earning, action)];
        i := i + 1;
      }
      assert collected == AllChanges(StoredEarnings(Value(), batch.earnings), action);
      return Ok(collected);
    }

    method MarkOutboxPublished(key: OutboxKey, at: int) returns (error: Option<LedgerError>)
      requires Valid()
      modifies this`outbox
      ensures Valid() && error == PublishProblem(old(Value()), key, at)
      ensures Value() == if error.None? then PublishEffect(old(Value()), key, at) else old(Value())
    {
      if key.tenant == "" || at == 0 {
        return Some(InvalidOutbox);
      }
      if key !in outbox {
        return Some(OutboxNotFound);
      }
      var event := outbox[key];
      if event.published.None? {
        outbox := outbox[key := event.(published := Some(at))];
      }
      return None;
    }
  }

  // ----- what keeps the store valid -----

  lemma DistinctPermutation<T>(a: seq<T>, b: seq<T>)
    requires Distinct(a) && multiset(a) == multiset(b)
    ensures Distinct(b) && forall x :: x in b <==> x in a
  {
    assert forall x :: x in b <==> x in multiset(b);
    forall i, j | 0 <= i < j < |b|
      ensures b[i] != b[j]
    {
      if b[i] == b[j] {
        TwiceCounted(b, i, j);
        DistinctCount(a, b[i]);
      }
    }
  }

  lemma TwiceCounted<T>(s: seq<T>, i: nat, j: nat)
    requires i < j < |s| && s[i] == s[j]
    ensures multiset(s)[s[i]] >= 2
  {
    assert s == s[..j] + s[j..];
    assert s[i] in multiset(s[..j]) && s[j] in multiset(s[j..]);
  }

  lemma {:induction false} DistinctCount<T>(s: seq<T>, x: T)
    requires Distinct(s)
    ensures multiset(s)[x] <= 1
  {
    if s != [] {
      var front := s[..|s| - 1];
      assert s == front + [s[|s| - 1]];
      DistinctCount(front, x);
      assert s[|s| - 1] !in front;
      assert s[|s| - 1] !in multiset(front);
    }
  }

  lemma NoCollision(l: Ledger, journals: seq<Journal>, outbox: seq<OutboxEvent>)
    requires !Collides(l, journals, outbox)
    ensures forall j :: 0 <= j < |outbox| ==> KeyOf(outbox[j]) !in l.outbox
    ensures forall i, j :: 0 <= i < j < |outbox| ==> KeyOf(outbox[i]) != KeyOf(outbox[j])
  {
    assert forall j :: 0 <= j < |outbox| ==>
      OutboxKeys(outbox)[j] == KeyOf(outbox[j]) && OutboxKeys(outbox)[j] in OutboxKeys(outbox);
  }

  lemma CommitStores(l: Ledger, c: Commit)
    requires WellKept(l) && FormProblem(c).None? && KeyOfEvent(c.event) !in l.events
    ensures WellKept(CommitEffect(l, c)) && AllStored(CommitEffect(l, c), EarningKeys(c.earnings))
  {
    hide Put;
    forall i | 0 <= i < |c.earnings|
      ensures c.earnings[i].amount.minor >= 0 && EarningKeys(c.earnings)[i] == EarningKey(c.earnings[i])
    {
      assert c.earnings[i] in c.earnings && BelongsTo(c.earnings[i], c);
    }
    PutKeeps(l.earnings, c.earnings);
    PutOrigin(l.earnings, c.earnings, EarningKey);
  }

  lemma ChangeKeeps(l: Ledger, earnings: seq<Earning>, action: Action)
    requires WellKept(l) && AllCanChange(earnings, action)
    requires forall i :: 0 <= i < |earnings| ==> earnings[i].amount.minor >= 0
    ensures WellKept(ChangeEffect(l, earnings, action))
    ensures EarningsKept(Put(l.earnings, AllChanged(earnings, action), EarningKey))
  {
    hide Put, Transition;
    PutKeeps(l.earnings, AllChanged(earnings, action));
  }

  /** A settlement's earnings, once their claims have been added up, can all start settling. */
  lemma ClaimsCanChange(l: Ledger, s: Settlement, versions: map<EarningID, int>, digest: EarningID -> int)
    requires IsDigest(digest) && ClaimProblem(l, s, versions, Sort(s.earnings, ByDigest(digest)), 0).None?
    ensures AllStored(l, s.earnings) && AllCanChange(StoredEarnings(l, s.earnings), StartSettling)
  {
    var sorted := Sort(s.earnings, ByDigest(digest));
    SortMembers(s.earnings, ByDigest(digest));
    hide Sort, ClaimProblem, IsClaimable;
    ClaimsAddUp(l, s, versions, sorted, 0);
    forall id | id in s.earnings
      ensures id in l.earnings && l.earnings[id].status.Available?
    {
      assert IsClaimable(l, s, versions, id) by { assert id in sorted; }
      ClaimableIsAvailable(l, s, versions, id);
    }
  }

  lemma StoredAreKept(l: Ledger, ids: seq<EarningID>)
    requires WellKept(l) && AllStored(l, ids)
    ensures forall i :: 0 <= i < |ids| ==> StoredEarnings(l, ids)[i].amount.minor >= 0
  {
  }

  lemma KeptEarnings(l: Ledger)
    requires EarningsKept(l.earnings)
    ensures WellKept(l)
  {
  }

  lemma SameEarningsKept(a: Ledger, b: Ledger)
    requires WellKept(a) && a.earnings == b.earnings
    ensures WellKept(b)
  {
  }

  lemma ClaimableIsAvailable(l: Ledger, s: Settlement, versions: map<EarningID, int>, id: EarningID)
    requires IsClaimable(l, s, versions, id)
    ensures id in l.earnings && l.earnings[id].status.Available?
  {
  }

  /** The settlement's own event is not one of its earnings' events. */
  lemma SettlementNoticeApart(l: Ledger, earnings: seq<Earning>, action: Action, s: Settlement)
    requires AllCanChange(earnings, action) && KeyOf(SettlementNotice(s)) !in l.outbox
    ensures KeyOf(SettlementNotice(s)) !in ChangeEffect(l, earnings, action).outbox
  {
    hide Put;
    var changed := AllChanged(earnings, action);
    PutOrigin(l.outbox, ChangeEvents(changed), KeyOf);
    assert forall i :: 0 <= i < |changed| ==> ChangeEvents(changed)[i].id.aggregate.EarningAggregate?;
  }
}
