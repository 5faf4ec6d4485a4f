/**
 What each subscription operation asks and leaves, field by field, and that this is what is committed once its billing
 hook has succeeded.
 */
module SubscriptionOutcomes {
  import opened Prelude
  import opened SubscriptionService
  import opened SubscriptionHooks

  // ----- what an operation asks -----

  /** The inputs name everything that must be named. */
  predicate IsGiven(op: Lifecycle, tenant: TenantId) {
    (op.Subscribe? ==> tenant != "" && op.plan != "" && op.periodEnd != Some(0)) &&
    (op.Renew? ==> tenant != "" && op.until != 0) &&
    (op.Expire? ==> tenant != "") &&
    (op.ChangePlan? ==> tenant != "" && op.plan != "")
  }

  /** The period, with its grace window where there is one, has ended. */
  predicate HasEnded(s: Subscription, asOf: Time) {
    s.periodEnd.Some? && if s.graceEnd.Some? then s.graceEnd.value <= asOf else s.periodEnd.value <= asOf
  }

  /** The refusal of a record in the wrong status, if it is in one. */
  function Refusal(op: Lifecycle, current: Option<Subscription>): Option<Error> {
    match current
    case None => if op.Subscribe? then None else if op.ExpireDue? then Some(NotDue) else Some(NotFound)
    case Some(s) =>
      if op.Subscribe? then Some(AlreadyExists)
      else if op.ExpireDue? then if s.status == Active && HasEnded(s, op.asOf) then None else Some(NotDue)
      else if op.Renew? then if s.status == Cancelled then Some(InvalidTransition) else None
      else if s.status == Active then None else Some(InvalidTransition)
  }

  /** An operation begins, is refused or waits, in the order of these checks. */
  lemma BeginsExactly(s: State, op: Lifecycle, tenant: TenantId, ctx: Context, cancelled: bool, now: Time, grace: Time)
    ensures var begun := Beginning(s, op, tenant, ctx, cancelled, now, grace);
      var refusal := Refusal(op, s.Committed(tenant));
      if cancelled then
        begun == Refuses(if op.Subscribe? && op.periodEnd == Some(0) then InvalidSubscription else Interrupted)
      else if !IsGiven(op, tenant) then begun == Refuses(InvalidSubscription)
      else if tenant in s.pending then
        begun == if ctx == [] then Waits(s.pending[tenant].owner) else Refuses(Reentrant)
      else if refusal.Some? then begun == Refuses(refusal.value)
      else begun.Begins?
  {
  }

  /** One round for the lock: who is cancelled goes, who finds it free has it, and no hook waits. */
  lemma LocksExactly(s: State, tenant: TenantId, ctx: Context, cancelled: bool)
    ensures var lock := Locking(s, tenant, ctx, cancelled);
      (lock.Gone? <==> cancelled) && (lock.Held? <==> !cancelled && tenant !in s.pending) &&
      (lock.Refused? <==> !cancelled && tenant in s.pending && |ctx| > 0) &&
      (lock.WaitFor? ==> tenant in s.pending && lock.owner == s.pending[tenant].owner)
  {
  }

  // ----- what an operation leaves -----

  /** The end of the grace window after a period. */
  function Window(end: Time, grace: Time): Option<Time> { if grace > 0 then Some(end + grace) else None }

  /** The record is the same but for its status and the date of its end. */
  predicate Ends(s: Subscription, status: Status, date: Time, after: Subscription) {
    after.status == status && after.endDate == Some(date) && after.tenant == s.tenant && after.plan == s.plan &&
    after.start == s.start && after.periodEnd == s.periodEnd && after.graceEnd == s.graceEnd
  }

  predicate LeavesNew(op: Lifecycle, tenant: TenantId, now: Time, grace: Time, after: Subscription)
    requires op.Subscribe?
  {
    after.tenant == tenant && after.plan == op.plan && after.status == Active && after.start == now &&
    after.endDate == None && after.periodEnd == op.periodEnd &&
    after.graceEnd == if op.periodEnd.Some? then Window(op.periodEnd.value, grace) else None
  }

  /** What the operation leaves of the record it found. */
  predicate Leaves(op: Lifecycle, s: Subscription, now: Time, grace: Time, after: Subscription) {
    match op
    case Subscribe(_, _) => false
    case Unsubscribe => Ends(s, Cancelled, now, after)
    case Renew(until) =>
      after.status == Active && after.endDate == None && after.periodEnd == Some(until) &&
      after.graceEnd == Window(until, grace) && after.tenant == s.tenant && after.plan == s.plan &&
      after.start == s.start
    case Expire => Ends(s, Expired, now, after)
    case ExpireDue(_) =>
      if s.graceEnd.Some? then Ends(s, Expired, s.graceEnd.value, after)
      else s.periodEnd.Some? && Ends(s, Expired, s.periodEnd.value, after)
    case ChangePlan(plan) =>
      after.plan == plan && after.tenant == s.tenant && after.status == s.status && after.start == s.start &&
      after.endDate == s.endDate && after.periodEnd == s.periodEnd && after.graceEnd == s.graceEnd
  }

  predicate LeavesOf(op: Lifecycle, tenant: TenantId, current: Option<Subscription>, now: Time, grace: Time,
          after: Subscription)
  {
    if op.Subscribe? then current == None && LeavesNew(op, tenant, now, grace, after)
    else current.Some? && Leaves(op, current.value, now, grace, after)
  }

  lemma StagedLeaves(op: Lifecycle, tenant: TenantId, current: Option<Subscription>, now: Time, grace: Time)
    ensures var staged := Staged(op, tenant, current, now, grace);
      staged.Ok? ==> LeavesOf(op, tenant, current, now, grace, staged.value)
  {
  }

  /** What begins is staged for its owner, and nothing is committed yet. */
  lemma BegunIsStaged(s: State, op: Lifecycle, tenant: TenantId, ctx: Context, cancelled: bool, now: Time, grace: Time,
          owner: CallId)
    ensures var begun := Beginning(s, op, tenant, ctx, cancelled, now, grace);
      var s' := AfterBeginning(s, tenant, owner, begun);
      s'.subscriptions == s.subscriptions && s'.closed == s.closed &&
      if begun.Begins? then
        LeavesOf(op, tenant, s.Committed(tenant), now, grace, begun.result) &&
        s'.pending == s.pending[tenant := Pending(owner, begun.result)]
      else s' == s
  {
    StagedLeaves(op, tenant, s.Committed(tenant), now, grace);
    hide Staged, LeavesOf, ValidInput;
  }

  // ----- direct writes -----

  predicate IsWhole(s: Subscription) { s.tenant != "" && s.plan != "" && s.start != 0 }

  predicate MayWrite(write: StoreWrite, tenant: TenantId) {
    match write
    case Create(subscription) => IsWhole(subscription)
    case Update(subscription) => IsWhole(subscription)
    case Delete => tenant != ""
  }

  predicate WriteLeaves(write: StoreWrite, current: Option<Subscription>, after: Option<Subscription>) {
    match write
    case Create(subscription) => current == None && after == Some(subscription)
    case Update(subscription) => current != None && after == Some(subscription)
    case Delete => current != None && after == None
  }

  /** A direct write is refused, waits, or leaves its record at once. */
  lemma WritesExactly(s: State, write: StoreWrite, tenant: TenantId, ctx: Context, cancelled: bool)
    ensures var begun := Writing(s, write, tenant, ctx, cancelled);
      var s', there := AfterWriting(s, tenant, begun), tenant in s.subscriptions;
      if cancelled then begun == Refuses(Interrupted) && s' == s
      else if !MayWrite(write, tenant) then begun == Refuses(InvalidSubscription) && s' == s
      else if tenant in s.pending then
        begun == (if ctx == [] then Waits(s.pending[tenant].owner) else Refuses(Reentrant)) && s' == s
      else if write.Create? && there then begun == Refuses(AlreadyExists) && s' == s
      else if !write.Create? && !there then begun == Refuses(NotFound) && s' == s
      else
        begun.Begins? && WriteLeaves(write, s.Committed(tenant), s'.Committed(tenant)) &&
        s'.subscriptions - {tenant} == s.subscriptions - {tenant} && s'.pending == s.pending && s'.closed == s.closed
  {
  }

  // ----- what is committed -----

  /** When a hook succeeds, what its operation leaves of the record is committed. */
  lemma HookCommits(w: World, steps: seq<Step>, w': World, c: CallId)
    requires Initial(w) && w' == Run(w, steps) && Enabled(w', HookReturns(c, true))
    ensures w'.calls[c].request.Change? && c in w'.clock
    ensures var call, next := w'.calls[c], Next(w', HookReturns(c, true));
      var before := w'.Service(call.service).Committed(call.tenant);
      var after := next.Service(call.service).Committed(call.tenant);
      after.Some? &&
      LeavesOf(call.request.op, call.tenant, before, w'.clock[c], w'.Grace(call.service), after.value) &&
      next.calls[c].phase == Returned(None) && call.tenant !in next.Service(call.service).pending
  {
    InitialInv(w);
    RunKeeps(w, steps);
    hide Run;
    var call := w'.calls[c];
    var s := w'.Service(call.service);
    assert CallOk(w', c) && PendingOk(w', call.service, call.tenant);
    StagedLeaves(call.request.op, call.tenant, s.Committed(call.tenant), w'.clock[c], w'.Grace(call.service));
    hide Staged, LeavesOf, Serial;
  }

  /** A direct write that gets on leaves its record and returns. */
  lemma WriteCommits(w: World, c: CallId, now: Time)
    requires Enabled(w, Try(c, now)) && w.calls[c].request.Write?
    requires Next(w, Try(c, now)).calls[c].phase == Returned(None)
    ensures var call, next := w.calls[c], Next(w, Try(c, now));
      WriteLeaves(call.request.write, w.Service(call.service).Committed(call.tenant),
                  next.Service(call.service).Committed(call.tenant))
  {
    var call := w.calls[c];
    WritesExactly(w.Service(call.service), call.request.write, call.tenant, call.ctx, false);
    hide Writing, WriteLeaves;
  }

  /** A call that is refused returns that error, and one that has to wait does; neither changes anything else. */
  lemma RefusedReturns(w: World, c: CallId, now: Time)
    requires Enabled(w, Try(c, now))
    ensures var call, next := w.calls[c], Next(w, Try(c, now));
      var s := w.Service(call.service);
      var lock := Locking(s, call.tenant, call.ctx, false);
      (next.calls[c].phase.Returned? && next.calls[c].phase.error.Some? ==>
         next == w.Moved(c, next.calls[c]) &&
         (call.request.Change? ==>
            Beginning(s, call.request.op, call.tenant, call.ctx, false, now, w.Grace(call.service)) ==
              Refuses(next.calls[c].phase.error.value)) &&
         (call.request.Write? ==>
            Writing(s, call.request.write, call.tenant, call.ctx, false) ==
              Refuses(next.calls[c].phase.error.value))) &&
      (next.calls[c].phase.Blocked? ==> next == w.Moved(c, next.calls[c]) && lock == WaitFor(next.calls[c].phase.owner))
  {
    hide Staged, Replaced, ValidInput, ValidWrite;
  }

  // ----- records are their tenants' -----

  /** Calls and the history write only under the names of the records' tenants. */
  predicate AllAddressed(w: World) {
    (forall c :: c in w.calls ==> IsAddressed(w.calls[c].request, w.calls[c].tenant)) &&
    LogAddressed(w.log)
  }

  predicate LogAddressed(log: seq<Entry>) {
    forall i :: 0 <= i < |log| ==> IsAddressed(log[i].request, log[i].tenant)
  }

  lemma NextAddressed(w: World, step: Step)
    requires AllAddressed(w)
    ensures AllAddressed(Next(w, step))
  {
    hide Beginning, Writing, Finish, Stage, IsAddressed;
  }

  lemma {:induction false} RunAddressed(w: World, steps: seq<Step>)
    requires AllAddressed(w)
    ensures AllAddressed(Run(w, steps))
    decreases |steps|
  {
    hide AllAddressed, Next;
    if steps != [] {
      NextAddressed(w, steps[0]);
      RunAddressed(Next(w, steps[0]), steps[1..]);
    }
  }

  lemma {:induction false} ReplayIsTheirs(log: seq<Entry>, service: ServiceId, tenant: TenantId, grace: Time)
    requires LogAddressed(log)
    ensures var record := Replay(log, service, tenant, grace); record.Some? ==> record.value.tenant == tenant
    decreases |log|
  {
    if log != [] {
      var before, last := log[..|log| - 1], log[|log| - 1];
      ReplayIsTheirs(before, service, tenant, grace);
      if last.request.Change? {
        StagedLeaves(last.request.op, tenant, Replay(before, service, tenant, grace), last.now, grace);
      }
      hide Staged;
    }
  }

  /** Every record a run commits is stored under its own tenant's name. */
  lemma RecordsAreTheirs(w: World, steps: seq<Step>, service: ServiceId, tenant: TenantId)
    requires Initial(w)
    ensures var record := Run(w, steps).Service(service).Committed(tenant);
      record.Some? ==> record.value.tenant == tenant
  {
    CommittedHistoryIsSerial(w, steps, service, tenant);
    RunAddressed(w, steps);
    hide Run, Replay;
    ReplayIsTheirs(Run(w, steps).log, service, tenant, Run(w, steps).Grace(service));
  }
}
