/** With which error the operations of the commission store are refused. Nothing of this names their checks. */
module CommissionRefusals {
  import opened Prelude
  import opened Sorting
  import opened CommissionFormula
  import opened CommissionCap
  import opened CommissionLedger
  import opened CommissionRuns
  import opened CommissionBooks
  import opened CommissionAnswers
  import opened CommissionOutcomes

  // ----- commits -----

  lemma EarningsExactly(c: Commit)
    ensures EarningsProper(c) <==>
      (forall e :: e in c.earnings ==> BelongsTo(e, c)) && Distinct(EarningKeys(c.earnings))
  {
    forall e
      ensures IsAbout(e, c) <==> BelongsTo(e, c)
    {
      AboutExactly(e, c);
    }
    KeysDistinct(c);
    hide IsAbout, BelongsTo, Distinct, EarningKeys;
  }

  /** An improper commit is refused for its event first, then for its head, for its earnings, and for the rest. */
  ghost function ImproperError(c: Commit): LedgerError {
    if !IsEvent(c.event) then InvalidCommissionEvent
    else if IsHeaded(c) && !EarningsProper(c) then InvalidEarning
    else InvalidCommit
  }

  lemma ImproperRefused(c: Commit)
    requires !IsProper(c)
    ensures FormProblem(c) == Some(ImproperError(c))
  {
    EventExactly(c.event);
    ProperExactly(c);
    EarningsExactly(c);
    hide IsEvent, ValidEvent, IsProper, EarningsProper, BelongsTo, JournalBelongsTo, Distinct, EarningKeys, JournalKeys;
  }

  /** A proper commit is refused for the first thing of the control plane that has moved. */
  function MovedError(control: Control, c: Commit): LedgerError
    requires c.attributionVersions != None
  {
    var place, design := (c.event.tenant, c.program), (c.template, c.templateVersion);
    if place !in control.programs then ProgramNotFound
    else
      var program := control.programs[place];
      if program.version == c.programVersion && program.status != ActiveProgram then ProgramNotActive
      else if program.version != c.programVersion || program.templateID != c.template ||
              program.templateVersion != c.templateVersion || !IsTracked(control, c, program) then VersionConflict
      else if design !in control.templates then TemplateNotFound
      else TemplateNotActive
  }

  lemma MovedRefused(control: Control, c: Commit)
    requires c.attributionVersions != None && !IsCurrent(control, c)
    ensures VersionsProblem(control, c) == Some(MovedError(control, c))
  {
  }

  /** Why a decided event is not committed: for its form, for another decision of it, or for what has moved since. */
  lemma CommitRefused(l: Ledger, op: Op, digest: EarningID -> int)
    requires Books(l) && op.CommitEvent?
    ensures var c, key := CommitOf(op), EventKey(op.event.tenant, op.event.sourceType, op.event.sourceID);
      var problem := Problem(l, op, digest);
      (!IsProper(c) ==> problem == Some(ImproperError(c))) &&
      (IsProper(c) && key in l.events && l.events[key].fingerprint != Fingerprint(op.event, op.program.id) ==>
         problem == Some(EventConflict)) &&
      (IsProper(c) && key !in l.events && !IsCurrent(op.control, c) ==>
         problem == Some(MovedError(op.control, c)))
  {
    var c := CommitOf(op);
    MadeCommit(op);
    assert c.attributionVersions != None by { hide NewEarnings, AllNewJournals, AllNewEvents; }
    hide FormProblem, VersionsProblem, IsProper, CommitOf, NewEarnings, AllNewEvents, Books, IsCurrent, CommitProblem,
      MovedError, ImproperError;
    CommitDecided(l, op);
    ProperExactly(c);
    if !IsProper(c) {
      ImproperRefused(c);
    } else if !IsCurrent(op.control, c) {
      MovedRefused(op.control, c);
    }
  }

  // ----- batches -----

  /** The batch could start if it were new and its earnings were as it says. */
  ghost predicate IsAsked(s: Settlement, versions: map<EarningID, int>, now: int) {
    now != 0 && IsBatch(s) && |versions| == |s.earnings| &&
    forall id :: id in s.earnings ==> id in versions && versions[id] > 0
  }

  /** Why a batch is refused. */
  lemma StartRefused(l: Ledger, op: Op, digest: EarningID -> int)
    requires IsKeyed(l) && OutboxBounded(l) && IsDigest(digest) && op.StartBatch?
    ensures var s, problem := op.batch, Problem(l, op, digest);
      var isNew := SettlementKey(s.tenant, s.id) !in l.settlements;
      (!IsAsked(s, op.versions, op.now) ==> problem == Some(InvalidSettlement)) &&
      (IsAsked(s, op.versions, op.now) && !isNew ==> problem == Some(SettlementAlreadyExists)) &&
      (IsAsked(s, op.versions, op.now) && isNew && problem.Some? ==>
         if forall id :: id in s.earnings ==> MayClaim(l, s, id, op.versions[id])
         then problem.value == InvalidSettlement else problem.value in {EarningUnavailable, InvalidSettlement})
  {
    var s := op.batch;
    BatchExactly(s, op.versions, op.now);
    NoticeIsNew(l, s);
    var sorted := Sort(s.earnings, ByDigest(digest));
    SortMembers(s.earnings, ByDigest(digest));
    ClaimRefused(l, s, op.versions, sorted, 0);
    hide Sort, SettlementNotice, IsBatch, ValidSettlement, OutboxBounded, IsKeyed, ClaimProblem;
  }

  lemma {:induction false} ClaimRefused(l: Ledger, s: Settlement, versions: map<EarningID, int>, ids: seq<EarningID>,
          total: int)
    ensures var problem := ClaimProblem(l, s, versions, ids, total);
      problem.Some? ==>
        problem.value in {EarningUnavailable, InvalidSettlement} &&
        (problem.value == EarningUnavailable ==> exists id :: id in ids && !IsClaimable(l, s, versions, id))
  {
    if ids != [] {
      hide IsClaimable;
      ClaimRefused(l, s, versions, ids[1..], total + if ids[0] in l.earnings then l.earnings[ids[0]].amount.minor as int
                                                      else 0);
    }
  }

  /** The batch's earnings are all settling, for the same tenant. */
  predicate IsClaimed(l: Ledger, s: Settlement, tenant: string) {
    forall id :: id in s.earnings ==>
      id in l.earnings && l.earnings[id].tenant == tenant && l.earnings[id].status == Settling
  }

  lemma ClaimedExactly(l: Ledger, key: SettlementKey)
    ensures key in l.settlements ==>
      (IsClaimed(l, l.settlements[key], key.tenant) <==> AllSettling(l, l.settlements[key], key.tenant))
  {
  }

  /** Why an outcome is refused. */
  lemma FinishRefused(l: Ledger, op: Op, digest: EarningID -> int)
    requires op.FinishBatch?
    ensures var problem := Problem(l, op, digest);
      if op.key.tenant == "" || op.key.id == "" || op.expected <= 0 || op.now == 0 then
        problem == Some(InvalidSettlement)
      else if op.key !in l.settlements then problem == Some(SettlementNotFound)
      else
        var s := l.settlements[op.key];
        (s.status == Submitted && s.version != op.expected ==> problem == Some(VersionConflict)) &&
        (s.status == Submitted && s.version == op.expected && !IsClaimed(l, s, op.key.tenant) ==>
           problem == Some(EarningUnavailable)) &&
        (s.status != Submitted && problem.Some? ==> problem == Some(SettlementOutcomeConflict))
  {
    ClaimedExactly(l, op.key);
    hide AllSettling, ChangeCollides, SettlementNotice;
  }

  // ----- releases and publications -----

  /** Releases are refused for their form alone, publications also when the event is unknown. */
  lemma OthersRefused(l: Ledger, op: Op, digest: EarningID -> int)
    requires Books(l) && IsDigest(digest) && IsPossible(l, op, digest)
    ensures op.ReleaseDue? ==> AllCanChange(op.due, MakeAvailable)
    ensures op.ReleaseDue? && Problem(l, op, digest).Some? ==> Problem(l, op, digest) == Some(InvalidEarning)
    ensures op.Publish? && Problem(l, op, digest).Some? ==>
      Problem(l, op, digest) ==
        Some(if op.published.tenant == "" || op.now == 0 then InvalidOutbox else OutboxNotFound)
  {
    if op.ReleaseDue? {
      DueNeverCollides(l, op, digest);
    }
    hide ChangeCollides, Books;
  }
}
