/** The commission ledger as a value: what every store operation refuses and what it changes. */
module CommissionLedger {
  import opened Prelude
  import opened Sorting
  import opened CommissionFormula
  import opened CommissionCap

  // ----- statuses -----

  datatype EarningStatus = Pending | Available | Held | Settling | Settled | Reversed | RecoveryDue

  datatype Action = MakeAvailable | Hold | Release | StartSettling | Settle | RejectSettling | Reverse

  function Transition(status: EarningStatus, action: Action): Option<EarningStatus> {
    match status
    case Pending => if action.MakeAvailable? then Some(Available) else if action.Hold? then Some(Held) else None
    case Available =>
      if action.Hold? then Some(Held) else if action.StartSettling? then Some(Settling)
      else if action.Reverse? then Some(Reversed) else None
    case Held => if action.Release? then Some(Available) else if action.Reverse? then Some(Reversed) else None
    case Settling => if action.Settle? then Some(Settled) else if action.RejectSettling? then Some(Available) else None
    case Settled => if action.Reverse? then Some(RecoveryDue) else None
    case Reversed => None
    case RecoveryDue => None
  }

  // ----- identifiers: the hashes of the source, as constructors -----

  datatype EarningID = EarningID(
    tenant: string, sourceType: string, sourceID: string, program: string, slot: string, beneficiary: Beneficiary)

  datatype JournalKind = AccrualEntry | AvailableEntry | HeldEntry | SettlementEntry | ReversalEntry | RecoveryEntry

  datatype JournalID = JournalID(earning: EarningID, kind: JournalKind, version: int)

  datatype SettlementStatus = Submitted | PaidOut | Rejected

  datatype Aggregate = EarningAggregate(earning: EarningID) | SettlementAggregate(settlement: string)

  /** New earnings are announced under their bare status, later changes under the prefixed one. */
  datatype EventType =
    | StatusOnly(status: EarningStatus)
    | EarningEvent(status: EarningStatus)
    | SettlementEvent(outcome: SettlementStatus)

  datatype OutboxID = OutboxID(tenant: string, aggregate: Aggregate, eventType: EventType, version: int)

  /** The facts of an event together with the program that decided it. */
  datatype Fingerprint = Fingerprint(event: Event, program: string)

  // ----- records -----

  datatype Earning = Earning(
    id: EarningID, tenant: string, program: string, template: string, templateVersion: int64, sourceType: string,
    sourceID: string, slot: string, beneficiary: Beneficiary, amount: Amount, status: EarningStatus, availableAt: int,
    version: int)

  datatype Journal = Journal(id: JournalID, tenant: string, earning: EarningID, kind: JournalKind, amount: Amount)

  datatype OutboxEvent = OutboxEvent(
    id: OutboxID, tenant: string, eventType: EventType, aggregate: Aggregate, published: Option<int>)

  datatype Settlement = Settlement(
    id: string, tenant: string, beneficiary: Beneficiary, amount: Amount, earnings: seq<EarningID>,
    status: SettlementStatus, reference: string, version: int)

  datatype EventKey = EventKey(tenant: string, sourceType: string, sourceID: string)

  datatype OutboxKey = OutboxKey(tenant: string, id: OutboxID)

  datatype SettlementKey = SettlementKey(tenant: string, id: string)

  datatype Recorded = Recorded(fingerprint: Fingerprint, earnings: seq<EarningID>)

  datatype Ledger = Ledger(
    earnings: map<EarningID, Earning>, journals: seq<Journal>, journalIDs: set<JournalID>,
    outbox: map<OutboxKey, OutboxEvent>, events: map<EventKey, Recorded>, settlements: map<SettlementKey, Settlement>)

  /** Templates by id and version, programs by tenant and id, attributions by tenant, program and slot. */
  datatype Control = Control(
    templates: map<(string, int64), Template>, programs: map<(string, string), Program>,
    attributions: map<(string, string, string), Attribution>)

  datatype Commit = Commit(
    event: Event, program: string, programVersion: int64, template: string, templateVersion: int64,
    attributionVersions: Option<map<string, int64>>, earnings: seq<Earning>, journals: seq<Journal>,
      outbox: seq<OutboxEvent>)

  datatype LedgerError =
    | InvalidCommissionEvent | InvalidCommit | InvalidEarning | EventConflict | ProgramNotFound | VersionConflict
    | ProgramNotActive | TemplateNotFound | TemplateNotActive | EarningNotFound | InvalidEarningTransition
    | InvalidSettlement | SettlementAlreadyExists | EarningUnavailable | SettlementNotFound | SettlementOutcomeConflict
    | InvalidOutbox | OutboxNotFound

  function EmptyLedger(): Ledger { Ledger(map[], [], {}, map[], map[], map[]) }

  // ----- posting entries -----

  function EarningKey(e: Earning): EarningID { e.id }

  function KeyOf(o: OutboxEvent): OutboxKey { OutboxKey(o.tenant, o.id) }

  function EarningKeys(earnings: seq<Earning>): seq<EarningID> {
    seq(|earnings|, i requires 0 <= i < |earnings| => earnings[i].id)
  }

  function OutboxKeys(outbox: seq<OutboxEvent>): seq<OutboxKey> {
    seq(|outbox|, i requires 0 <= i < |outbox| => KeyOf(outbox[i]))
  }

  function JournalKeys(journals: seq<Journal>): seq<JournalID> {
    seq(|journals|, i requires 0 <= i < |journals| => journals[i].id)
  }

  /** `m` after storing the values of `s` in order. */
  function Put<K, V>(m: map<K, V>, s: seq<V>, key: V -> K): map<K, V> {
    if s == [] then m else Put(m, s[..|s| - 1], key)[key(s[|s| - 1]) := s[|s| - 1]]
  }

  lemma PutNothing<K, V>(m: map<K, V>, s: seq<V>, key: V -> K)
    ensures Put(m, s[..0], key) == m
  {
  }

  lemma PutNext<K, V>(m: map<K, V>, s: seq<V>, key: V -> K, i: nat)
    requires i < |s|
    ensures Put(m, s[..i + 1], key) == Put(m, s[..i], key)[key(s[i]) := s[i]]
  {
    assert s[..i + 1][..i] == s[..i];
  }

  /** Every entry comes from one of the values or was there before. */
  lemma {:induction false} PutOrigin<K, V>(m: map<K, V>, s: seq<V>, key: V -> K)
    ensures forall i :: 0 <= i < |s| ==> key(s[i]) in Put(m, s, key)
    ensures forall k :: k in Put(m, s, key) ==>
      (k in m && Put(m, s, key)[k] == m[k]) || exists i :: 0 <= i < |s| && key(s[i]) == k && Put(m, s, key)[k] == s[i]
  {
    if s != [] {
      var front := s[..|s| - 1];
      PutOrigin(m, front, key);
      assert forall i :: 0 <= i < |front| ==> front[i] == s[i];
    }
  }

  /** With distinct keys every value is found under its key, and all other entries stay. */
  lemma {:induction false} PutShape<K, V>(m: map<K, V>, s: seq<V>, key: V -> K)
    requires forall i, j :: 0 <= i < j < |s| ==> key(s[i]) != key(s[j])
    ensures forall i :: 0 <= i < |s| ==> key(s[i]) in Put(m, s, key) && Put(m, s, key)[key(s[i])] == s[i]
    ensures forall k :: k in m ==> k in Put(m, s, key)
    ensures forall k :: k in Put(m, s, key) && (forall i :: 0 <= i < |s| ==> key(s[i]) != k) ==>
      k in m && Put(m, s, key)[k] == m[k]
  {
    if s != [] {
      PutShape(m, s[..|s| - 1], key);
    }
  }

  /** Earnings replaced or added, journal entries appended, events added to the outbox. */
  function Post(l: Ledger, earnings: seq<Earning>, journals: seq<Journal>, outbox: seq<OutboxEvent>): Ledger {
    l.(earnings := Put(l.earnings, earnings, EarningKey),
       journals := l.journals + journals,
       journalIDs := l.journalIDs + (set id | id in JournalKeys(journals)),
       outbox := Put(l.outbox, outbox, KeyOf))
  }

  // ----- committing an event -----

  predicate ValidStored(e: Earning) {
    e.tenant != "" && e.program != "" && e.template != "" && e.templateVersion > 0 && e.sourceType != "" &&
      e.sourceID != "" &&
    e.slot != "" && ValidBeneficiary(e.beneficiary) && ValidAmount(e.amount) && e.availableAt != 0 && e.version > 0
  }

  predicate BelongsTo(e: Earning, c: Commit) {
    ValidStored(e) && e.tenant == c.event.tenant && e.program == c.program && e.template == c.template &&
    e.templateVersion == c.templateVersion && e.sourceType == c.event.sourceType && e.sourceID == c.event.sourceID
  }

  predicate JournalBelongsTo(j: Journal, c: Commit) {
    j.tenant == c.event.tenant && ValidAmount(j.amount) && j.earning in EarningKeys(c.earnings)
  }

  /** What is wrong with a commit by itself. */
  function FormProblem(c: Commit): Option<LedgerError> {
    var nothing := c.earnings == [] && c.journals == [] && c.outbox == [];
    if !ValidEvent(c.event) then Some(InvalidCommissionEvent)
    else if c.program == "" || c.template == "" || c.programVersion <= 0 || c.templateVersion <= 0 ||
      c.attributionVersions.None? ||
            (!nothing && (c.earnings == [] || c.journals == [] || c.outbox == [])) then Some(InvalidCommit)
    else if (exists e :: e in c.earnings && !BelongsTo(e, c)) || !Distinct(EarningKeys(c.earnings)) then
      Some(InvalidEarning)
    else if (exists j :: j in c.journals && !JournalBelongsTo(j, c)) || !Distinct(JournalKeys(c.journals)) then
      Some(InvalidCommit)
    else if (exists o :: o in c.outbox && o.tenant != c.event.tenant) ||
            !Distinct(seq(|c.outbox|, i requires 0 <= i < |c.outbox| => c.outbox[i].id)) then
      Some(InvalidCommit)
    else None
  }

  function AttributionVersion(control: Control, tenant: string, program: string, slot: string): int64 {
    if (tenant, program, slot) in control.attributions then control.attributions[(tenant, program, slot)].version else 0
  }

  function Tracked(c: Commit): map<string, int64> {
    if c.attributionVersions.Some? then c.attributionVersions.value else map[]
  }

  /** Every rule's attribution still has the version the commit was calculated with. */
  predicate TracksAttributions(control: Control, c: Commit, program: Program) {
    var tracked := Tracked(c);
    forall r :: r in program.rules ==>
      r.slot in tracked && tracked[r.slot] == AttributionVersion(control, c.event.tenant, program.id, r.slot)
  }

  function VersionsProblem(control: Control, c: Commit): Option<LedgerError> {
    if (c.event.tenant, c.program) !in control.programs then Some(ProgramNotFound)
    else
      var program := control.programs[(c.event.tenant, c.program)];
      if program.version != c.programVersion then Some(VersionConflict)
      else if !program.status.ActiveProgram? then Some(ProgramNotActive)
      else if program.templateID != c.template || program.templateVersion != c.templateVersion then
        Some(VersionConflict)
      else if !TracksAttributions(control, c, program) then Some(VersionConflict)
      else if (c.template, c.templateVersion) !in control.templates then Some(TemplateNotFound)
      else if !control.templates[(c.template, c.templateVersion)].status.ActiveTemplate? then Some(TemplateNotActive)
      else None
  }

  function KeyOfEvent(e: Event): EventKey { EventKey(e.tenant, e.sourceType, e.sourceID) }

  predicate CommitCollides(l: Ledger, c: Commit) {
    (exists id :: id in EarningKeys(c.earnings) && id in l.earnings) ||
    (exists key :: key in OutboxKeys(c.outbox) && key in l.outbox) ||
    (exists id :: id in JournalKeys(c.journals) && id in l.journalIDs)
  }

  /** Whether every earning of an event is still there. */
  predicate AllStored(l: Ledger, ids: seq<EarningID>) { forall id :: id in ids ==> id in l.earnings }

  function StoredEarnings(l: Ledger, ids: seq<EarningID>): seq<Earning>
    requires AllStored(l, ids)
  {
    seq(|ids|, i requires 0 <= i < |ids| => l.earnings[ids[i]])
  }

  function CommitProblem(l: Ledger, control: Control, c: Commit): Option<LedgerError> {
    var key := KeyOfEvent(c.event);
    if FormProblem(c).Some? then FormProblem(c)
    else if key in l.events then
      if l.events[key].fingerprint != Fingerprint(c.event, c.program) then Some(EventConflict)
      else if !AllStored(l, l.events[key].earnings) then Some(InvalidEarning)
      else None
    else if VersionsProblem(control, c).Some? then VersionsProblem(control, c)
    else if CommitCollides(l, c) then Some(EventConflict)
    else None
  }

  function CommitEffect(l: Ledger, c: Commit): Ledger {
    var key := KeyOfEvent(c.event);
    if key in l.events then l
    else Post(l, c.earnings, c.journals, c.outbox).(
      events := l.events[key := Recorded(Fingerprint(c.event, c.program), EarningKeys(c.earnings))])
  }

  /** The earnings a commit returns: those first recorded for the event. */
  function CommitIDs(l: Ledger, c: Commit): seq<EarningID> {
    if KeyOfEvent(c.event) in l.events then l.events[KeyOfEvent(c.event)].earnings else EarningKeys(c.earnings)
  }

  // ----- the entries of a decided event -----

  function FirstStatus(event: Event, template: Template, now: int): EarningStatus {
    if event.occurredAt + template.freezePeriod <= now then Available else Pending
  }

  function NewEarning(event: Event, program: Program, template: Template, calculation: Calculation, now: int): Earning {
    Earning(
      EarningID(event.tenant, event.sourceType, event.sourceID, program.id, calculation.slot, calculation.beneficiary),
      event.tenant, program.id, template.id, template.version, event.sourceType, event.sourceID, calculation.slot,
      calculation.beneficiary, calculation.amount, FirstStatus(event, template, now), event.occurredAt +
        template.freezePeriod, 1)
  }

  function JournalOf(e: Earning, kind: JournalKind): Journal {
    Journal(JournalID(e.id, kind, e.version), e.tenant, e.id, kind, e.amount)
  }

  /** An accrual, and at once its release when the freeze period is over already. */
  function NewJournals(e: Earning): seq<Journal> {
    if e.status.Available? then [JournalOf(e, AccrualEntry), JournalOf(e, AvailableEntry)]
      else [JournalOf(e, AccrualEntry)]
  }

  function NewEvent(e: Earning): OutboxEvent {
    OutboxEvent(OutboxID(e.tenant, EarningAggregate(e.id), StatusOnly(e.status), e.version), e.tenant,
      EarningEvent(e.status),
      EarningAggregate(e.id), None)
  }

  function NewEarnings(event: Event, program: Program, template: Template, calculations: seq<Calculation>,
          now: int): seq<Earning>
  {
    seq(|calculations|,
      i requires 0 <= i < |calculations| => NewEarning(event, program, template, calculations[i], now))
  }

  function AllNewJournals(earnings: seq<Earning>): seq<Journal> {
    if earnings == [] then [] else AllNewJournals(earnings[..|earnings| - 1]) + NewJournals(earnings[|earnings| - 1])
  }

  function AllNewEvents(earnings: seq<Earning>): seq<OutboxEvent> {
    seq(|earnings|, i requires 0 <= i < |earnings| => NewEvent(earnings[i]))
  }

  /** The commit the service hands to its store for an event. */
  function ServiceCommit(event: Event, program: Program, template: Template, versions: map<string, int64>,
                         calculations: seq<Calculation>, now: int): Commit
  {
    var earnings := NewEarnings(event, program, template, calculations, now);
    Commit(event, program.id, program.version, template.id, template.version, Some(versions), earnings,
      AllNewJournals(earnings),
      AllNewEvents(earnings))
  }

  // ----- changing earnings one status further -----

  function KindFor(action: Action, next: EarningStatus): JournalKind {
    match action
    case Hold => HeldEntry
    case Reverse => if next.RecoveryDue? then RecoveryEntry else ReversalEntry
    case Settle => SettlementEntry
    case MakeAvailable => AvailableEntry
    case Release => AvailableEntry
    case StartSettling => AvailableEntry
    case RejectSettling => AvailableEntry
  }

  predicate CanChange(e: Earning, action: Action) { Transition(e.status, action).Some? }

  function Changed(e: Earning, action: Action): Earning
    requires CanChange(e, action)
  {
    e.(status := Transition(e.status, action).value, version := e.version + 1)
  }

  function ChangeJournal(e: Earning, action: Action): Journal { JournalOf(e, KindFor(action, e.status)) }

  function ChangeEvent(e: Earning): OutboxEvent {
    OutboxEvent(OutboxID(e.tenant, EarningAggregate(e.id), EarningEvent(e.status), e.version), e.tenant,
      EarningEvent(e.status),
      EarningAggregate(e.id), None)
  }

  predicate AllCanChange(earnings: seq<Earning>, action: Action) {
    forall i :: 0 <= i < |earnings| ==> CanChange(earnings[i], action)
  }

  function AllChanged(earnings: seq<Earning>, action: Action): seq<Earning>
    requires AllCanChange(earnings, action)
  {
    seq(|earnings|, i requires 0 <= i < |earnings| => Changed(earnings[i], action))
  }

  function ChangeJournals(changed: seq<Earning>, action: Action): seq<Journal> {
    seq(|changed|, i requires 0 <= i < |changed| => ChangeJournal(changed[i], action))
  }

  function ChangeEvents(changed: seq<Earning>): seq<OutboxEvent> {
    seq(|changed|, i requires 0 <= i < |changed| => ChangeEvent(changed[i]))
  }

  /** A journal entry or event of the change exists already, or two of them are the same. */
  predicate Collides(l: Ledger, journals: seq<Journal>, outbox: seq<OutboxEvent>) {
    (exists id :: id in JournalKeys(journals) && id in l.journalIDs) || !Distinct(JournalKeys(journals)) ||
    (exists key :: key in OutboxKeys(outbox) && key in l.outbox) || !Distinct(OutboxKeys(outbox))
  }

  predicate ChangeCollides(l: Ledger, earnings: seq<Earning>, action: Action)
    requires AllCanChange(earnings, action)
  {
    var changed := AllChanged(earnings, action);
    Collides(l, ChangeJournals(changed, action), ChangeEvents(changed))
  }

  function ChangeEffect(l: Ledger, earnings: seq<Earning>, action: Action): Ledger
    requires AllCanChange(earnings, action)
  {
    var changed := AllChanged(earnings, action);
    Post(l, changed, ChangeJournals(changed, action), ChangeEvents(changed))
  }

  // ----- one earning -----

  predicate IsManual(action: Action) { action.Hold? || action.Release? || action.Reverse? }

  function TransitionProblem(l: Ledger, tenant: string, id: EarningID, expected: int, action: Action,
          now: int): Option<LedgerError>
  {
    if tenant == "" || expected <= 0 || now == 0 || !IsManual(action) then Some(InvalidEarning)
    else if id !in l.earnings || l.earnings[id].tenant != tenant then Some(EarningNotFound)
    else if l.earnings[id].version != expected then Some(VersionConflict)
    else if !CanChange(l.earnings[id], action) then Some(InvalidEarningTransition)
    else if ChangeCollides(l, [l.earnings[id]], action) then Some(EventConflict)
    else None
  }

  // ----- due earnings -----

  predicate IsDue(e: Earning, now: int) { e.status.Pending? && e.availableAt <= now }

  /** By availability, then by the text of the identifier, which `digest` stands for. */
  function DueOrder(digest: EarningID -> int): (Earning, Earning) -> bool {
    (a: Earning, b: Earning) => a.availableAt < b.availableAt ||
      (a.availableAt == b.availableAt && digest(a.id) <= digest(b.id))
  }

  ghost predicate IsDigest(digest: EarningID -> int) { forall a, b :: digest(a) == digest(b) ==> a == b }

  /** `due` lists the due earnings in the order they are released. */
  ghost predicate IsDueList(l: Ledger, now: int, digest: EarningID -> int, due: seq<Earning>) {
    Distinct(due) && IsSorted(due, DueOrder(digest)) &&
    (forall e :: e in due ==> IsDue(e, now) && e.id in l.earnings && l.earnings[e.id] == e) &&
    (forall id :: id in l.earnings && IsDue(l.earnings[id], now) ==> l.earnings[id] in due)
  }

  function Front<T>(s: seq<T>, limit: int): seq<T>
    requires limit > 0
  {
    if |s| > limit then s[..limit] else s
  }

  lemma FrontCanChange(due: seq<Earning>, limit: int)
    requires limit > 0 && AllCanChange(due, MakeAvailable)
    ensures AllCanChange(Front(due, limit), MakeAvailable)
  {
  }

  /** `due` lists what is due. */
  function DueProblem(l: Ledger, now: int, limit: int, due: seq<Earning>): Option<LedgerError>
    requires AllCanChange(due, MakeAvailable)
  {
    if now == 0 || limit <= 0 then Some(InvalidEarning)
    else if ChangeCollides(l, Front(due, limit), MakeAvailable) then Some(EventConflict)
    else None
  }

  // ----- settlements -----

  function KeyOfSettlement(s: Settlement): SettlementKey { SettlementKey(s.tenant, s.id) }

  function SettlementNotice(s: Settlement): OutboxEvent {
    OutboxEvent(OutboxID(s.tenant, SettlementAggregate(s.id), SettlementEvent(s.status), s.version), s.tenant,
      SettlementEvent(s.status), SettlementAggregate(s.id), None)
  }

  function Expected(versions: map<EarningID, int>, id: EarningID): int { if id in versions then versions[id] else 0 }

  predicate ValidSettlement(s: Settlement, versions: map<EarningID, int>, now: int) {
    s.id != "" && s.tenant != "" && ValidBeneficiary(s.beneficiary) && ValidAmount(s.amount) && s.amount.minor > 0 &&
    s.status.Submitted? && s.version > 0 && now != 0 && s.earnings != [] && |s.earnings| == |versions| &&
    (forall id :: id in s.earnings ==> Expected(versions, id) > 0) && Distinct(s.earnings)
  }

  /** The earning can go into the settlement at the version its caller saw. */
  predicate IsClaimable(l: Ledger, s: Settlement, versions: map<EarningID, int>, id: EarningID) {
    id in l.earnings && l.earnings[id].tenant == s.tenant && l.earnings[id].status.Available? &&
    l.earnings[id].version == Expected(versions, id) && l.earnings[id].beneficiary == s.beneficiary &&
    l.earnings[id].amount.currency == s.amount.currency
  }

  /** The first thing wrong with the claimed earnings, when `total` has been added up before them. */
  function ClaimProblem(l: Ledger, s: Settlement, versions: map<EarningID, int>, ids: seq<EarningID>,
          total: int): Option<LedgerError>
  {
    if ids == [] then if total != s.amount.minor as int then Some(InvalidSettlement) else None
    else if !IsClaimable(l, s, versions, ids[0]) then Some(EarningUnavailable)
    else if l.earnings[ids[0]].amount.minor as int + total > MAX_INT64 as int then Some(InvalidSettlement)
    else ClaimProblem(l, s, versions, ids[1..], total + l.earnings[ids[0]].amount.minor as int)
  }

  /** What some stored earnings amount to. */
  function SumOfStored(earnings: map<EarningID, Earning>, ids: seq<EarningID>): int
    requires forall id :: id in ids ==> id in earnings
  {
    if ids == [] then 0 else earnings[ids[0]].amount.minor as int + SumOfStored(earnings, ids[1..])
  }

  /** Claims without a problem: every earning can be claimed and their sum is the settlement's amount. */
  lemma {:induction false} ClaimsAddUp(l: Ledger, s: Settlement, versions: map<EarningID, int>, ids: seq<EarningID>,
          total: int)
    requires ClaimProblem(l, s, versions, ids, total).None?
    ensures forall id :: id in ids ==> IsClaimable(l, s, versions, id)
    ensures AllStored(l, ids) && total + SumOfStored(l.earnings, ids) == s.amount.minor as int
  {
    if ids != [] {
      ClaimsAddUp(l, s, versions, ids[1..], total + l.earnings[ids[0]].amount.minor as int);
    }
  }

  function ByDigest(digest: EarningID -> int): (EarningID, EarningID) -> bool {
    (a: EarningID, b: EarningID) => digest(a) <= digest(b)
  }

  function StartProblem(l: Ledger, s: Settlement, versions: map<EarningID, int>, now: int,
          digest: EarningID -> int): Option<LedgerError>
  {
    if !ValidSettlement(s, versions, now) then Some(InvalidSettlement)
    else if KeyOfSettlement(s) in l.settlements then Some(SettlementAlreadyExists)
    else
      var problem := ClaimProblem(l, s, versions, Sort(s.earnings, ByDigest(digest)), 0);
      if problem.Some? then problem
      else if KeyOf(SettlementNotice(s)) in l.outbox then Some(EventConflict)
      else None
  }

  /** The claimed earnings are settling, without journal entries or events of their own. */
  function StartEffect(l: Ledger, s: Settlement): Ledger
    requires AllStored(l, s.earnings) && AllCanChange(StoredEarnings(l, s.earnings), StartSettling)
  {
    l.(earnings := Put(l.earnings, AllChanged(StoredEarnings(l, s.earnings), StartSettling), EarningKey),
       settlements := l.settlements[KeyOfSettlement(s) := s],
       outbox := l.outbox[KeyOf(SettlementNotice(s)) := SettlementNotice(s)])
  }

  function OutcomeAction(settled: bool): Action { if settled then Settle else RejectSettling }

  function Outcome(settled: bool): SettlementStatus { if settled then PaidOut else Rejected }

  function Completed(s: Settlement, settled: bool, reference: string): Settlement {
    s.(status := Outcome(settled), reference := reference, version := s.version + 1)
  }

  predicate IsSettling(l: Ledger, tenant: string, id: EarningID) {
    id in l.earnings && l.earnings[id].tenant == tenant && l.earnings[id].status.Settling?
  }

  /** The outcome was recorded before, with the same reference. */
  predicate IsRepeat(s: Settlement, settled: bool, reference: string) {
    s.status == Outcome(settled) && s.reference == reference
  }

  predicate AllSettling(l: Ledger, s: Settlement, tenant: string) {
    forall i :: 0 <= i < |s.earnings| ==> IsSettling(l, tenant, s.earnings[i])
  }

  function FinishProblem(l: Ledger, key: SettlementKey, expected: int, settled: bool, reference: string,
          now: int): Option<LedgerError>
  {
    if key.tenant == "" || key.id == "" || expected <= 0 || now == 0 then Some(InvalidSettlement)
    else if key !in l.settlements then Some(SettlementNotFound)
    else
      var s := l.settlements[key];
      if !s.status.Submitted? then if IsRepeat(s, settled, reference) then None else Some(SettlementOutcomeConflict)
      else if s.version != expected then Some(VersionConflict)
      else if !AllSettling(l, s, key.tenant) then Some(EarningUnavailable)
      else if ChangeCollides(l, StoredEarnings(l, s.earnings), OutcomeAction(settled)) then Some(EventConflict)
      else if KeyOf(SettlementNotice(Completed(s, settled, reference))) in l.outbox then Some(EventConflict)
      else None
  }

  function FinishEffect(l: Ledger, key: SettlementKey, settled: bool, reference: string): Ledger
    requires key in l.settlements &&
      (l.settlements[key].status.Submitted? ==> AllSettling(l, l.settlements[key], key.tenant))
  {
    var s := l.settlements[key];
    if !s.status.Submitted? then l
    else
      var done := Completed(s, settled, reference);
      var changed := ChangeEffect(l, StoredEarnings(l, s.earnings), OutcomeAction(settled));
      changed.(settlements := l.settlements[key := done],
               outbox := changed.outbox[KeyOf(SettlementNotice(done)) := SettlementNotice(done)])
  }

  // ----- publishing -----

  function PublishProblem(l: Ledger, key: OutboxKey, at: int): Option<LedgerError> {
    if key.tenant == "" || at == 0 then Some(InvalidOutbox) else if key !in l.outbox then Some(OutboxNotFound) else None
  }

  /** Only the first publication is recorded. */
  function PublishEffect(l: Ledger, key: OutboxKey, at: int): Ledger
    requires key in l.outbox
  {
    if l.outbox[key].published.Some? then l else l.(outbox := l.outbox[key := l.outbox[key].(published := Some(at))])
  }
}
