/**
 The critical sections of the subscription service: lock or learn who holds the tenant, stage, finish,
 read. A pending mutation is identified by the call that staged it.
 */
module SubscriptionService {
  import opened Prelude

  type TenantId = string

  type ServiceId = int

  type CallId = int

  /** Instants and periods, in nanoseconds. */
  type Time = int

  datatype Status = Active | Expired | Cancelled

  datatype Subscription = Subscription(
    tenant: TenantId, plan: string, status: Status, start: Time,
    endDate: Option<Time>, periodEnd: Option<Time>, graceEnd: Option<Time>)

  datatype Lifecycle =
    | Subscribe(plan: string, periodEnd: Option<Time>)
    | Unsubscribe
    | Renew(until: Time)
    | Expire
    | ExpireDue(asOf: Time)
    | ChangePlan(plan: string)

  datatype StoreWrite = Create(subscription: Subscription) | Update(subscription: Subscription) | Delete

  datatype Error =
    | InvalidSubscription | NotFound | AlreadyExists | InvalidTransition | Reentrant | NotDue | HookFailed | Interrupted

  // ----- inputs -----

  /** What a lifecycle operation checks before it asks for the lock; zero stands for Go's zero time. */
  predicate ValidInput(op: Lifecycle, tenant: TenantId) {
    match op
    case Subscribe(plan, periodEnd) => periodEnd != Some(0) && tenant != "" && plan != ""
    case Unsubscribe => true
    case Renew(until) => tenant != "" && until != 0
    case Expire => tenant != ""
    case ExpireDue(_) => true
    case ChangePlan(plan) => tenant != "" && plan != ""
  }

  predicate ValidSubscription(s: Subscription) { s.tenant != "" && s.plan != "" && s.start != 0 }

  predicate ValidWrite(write: StoreWrite, tenant: TenantId) {
    if write.Delete? then tenant != "" else ValidSubscription(write.subscription)
  }

  // ----- what an operation makes of the committed record -----

  function WithPeriod(s: Subscription, end: Time, grace: Time): Subscription {
    s.(periodEnd := Some(end), graceEnd := if grace > 0 then Some(end + grace) else None)
  }

  /** End of the grace window when there is one, otherwise of the period. */
  function ExpirationDate(s: Subscription): Option<Time> {
    if s.graceEnd.Some? then s.graceEnd else s.periodEnd
  }

  predicate IsDue(s: Subscription, now: Time) {
    s.status.Active? && s.periodEnd.Some? && ExpirationDate(s).value <= now
  }

  /** The record a lifecycle operation stages for the billing hook. */
  function Staged(op: Lifecycle, tenant: TenantId, current: Option<Subscription>, now: Time,
          grace: Time): Result<Subscription, Error>
  {
    match op
    case Subscribe(plan, periodEnd) =>
      if current.Some? then Err(AlreadyExists)
      else
        var created := Subscription(tenant, plan, Active, now, None, None, None);
        Ok(if periodEnd.Some? then WithPeriod(created, periodEnd.value, grace) else created)
    case Unsubscribe =>
      if current.None? then Err(NotFound)
      else if !current.value.status.Active? then Err(InvalidTransition)
      else Ok(current.value.(status := Cancelled, endDate := Some(now)))
    case Renew(until) =>
      if current.None? then Err(NotFound)
      else if current.value.status.Cancelled? then Err(InvalidTransition)
      else Ok(WithPeriod(current.value.(status := Active, endDate := None), until, grace))
    case Expire =>
      if current.None? then Err(NotFound)
      else if !current.value.status.Active? then Err(InvalidTransition)
      else Ok(current.value.(status := Expired, endDate := Some(now)))
    case ExpireDue(asOf) =>
      if current.None? || !IsDue(current.value, asOf) then Err(NotDue)
      else Ok(current.value.(status := Expired, endDate := ExpirationDate(current.value)))
    case ChangePlan(plan) =>
      if current.None? then Err(NotFound)
      else if !current.value.status.Active? then Err(InvalidTransition)
      else Ok(current.value.(plan := plan))
  }

  /** The record a direct store write leaves. */
  function Replaced(write: StoreWrite, current: Option<Subscription>): Result<Option<Subscription>, Error> {
    match write
    case Create(subscription) => if current.Some? then Err(AlreadyExists) else Ok(Some(subscription))
    case Update(subscription) => if current.None? then Err(NotFound) else Ok(Some(subscription))
    case Delete => if current.None? then Err(NotFound) else Ok(None)
  }

  // ----- what every operation guarantees -----

  /** A record has ended exactly when it is not active, and its grace window does not end before its period. */
  predicate IsConsistent(s: Subscription) {
    (s.endDate.None? <==> s.status.Active?) &&
    (s.graceEnd.Some? ==> s.periodEnd.Some? && s.periodEnd.value <= s.graceEnd.value)
  }

  /** The statuses in which an operation accepts the record there is, if any. */
  predicate Accepts(op: Lifecycle, current: Option<Subscription>) {
    if op.Subscribe? then current.None?
    else
      current.Some? &&
      if op.Renew? then !current.value.status.Cancelled?
      else if op.ExpireDue? then IsDue(current.value, op.asOf)
      else current.value.status.Active?
  }

  /**
   An operation stages a record exactly in the statuses it accepts. The record stays the tenant's, keeps its start, its
   plan unless that is what changes, and its period unless it is renewed; it remains consistent, and is active unless
   the operation ends it.
   */
  lemma LifecycleGuarantees(op: Lifecycle, tenant: TenantId, current: Option<Subscription>, now: Time, grace: Time)
    ensures var staged := Staged(op, tenant, current, now, grace);
      (staged.Ok? <==> Accepts(op, current)) &&
      (staged.Ok? ==> (staged.value.status.Active? <==> op.Subscribe? || op.Renew? || op.ChangePlan?))
    ensures var staged := Staged(op, tenant, current, now, grace);
      staged.Ok? && current.Some? ==>
        staged.value.tenant == current.value.tenant && staged.value.start == current.value.start &&
        (!op.ChangePlan? ==> staged.value.plan == current.value.plan) &&
        (!op.Renew? ==>
          staged.value.periodEnd == current.value.periodEnd && staged.value.graceEnd == current.value.graceEnd)
    ensures var staged := Staged(op, tenant, current, now, grace);
      staged.Ok? && (current.Some? ==> IsConsistent(current.value)) ==> IsConsistent(staged.value)
  {
  }

  /** What has expired is not due again until it is renewed, and then not before the end of its new grace window. */
  lemma RenewedIsNotDue(current: Option<Subscription>, tenant: TenantId, until: Time, now: Time, grace: Time,
          later: Time)
    ensures var expired := Staged(ExpireDue(now), tenant, current, now, grace); expired.Ok? ==>
      !IsDue(expired.value, later)
    ensures var renewed := Staged(Renew(until), tenant, current, now, grace);
      renewed.Ok? ==> (IsDue(renewed.value, later) <==> later >= until + if grace > 0 then grace else 0)
  {
  }

  // ----- one service -----

  datatype Pending = Pending(owner: CallId, staged: Subscription)

  /** `closed` are the owners whose done channels are closed. */
  datatype State = State(
    subscriptions: map<TenantId, Subscription>, pending: map<TenantId, Pending>, closed: set<CallId>)
  {
    function Committed(tenant: TenantId): Option<Subscription> {
      if tenant in subscriptions then Some(subscriptions[tenant]) else None
    }

    function WithCommitted(tenant: TenantId, record: Option<Subscription>): State {
      this.(subscriptions := if record.Some? then subscriptions[tenant := record.value] else subscriptions - {tenant})
    }
  }

  /** A hook's mark on the context it passes on; the newest mark comes first. */
  datatype Marker = Marker(service: ServiceId, tenant: TenantId, owner: CallId)

  type Context = seq<Marker>

  datatype Lock = Held | Gone | Refused | WaitFor(owner: CallId)

  /** One round of `lockMutation`. */
  function Locking(s: State, tenant: TenantId, ctx: Context, cancelled: bool): Lock {
    if cancelled then Gone
    else if tenant !in s.pending then Held
    else if ctx != [] then Refused
    else WaitFor(s.pending[tenant].owner)
  }

  /** How a mutation gets on until it has its result under the lock, is refused, or has to wait for a pending one. */
  datatype Begun<+R> = Begins(result: R) | Refuses(error: Error) | Waits(owner: CallId)

  function Under<R>(lock: Lock, result: Result<R, Error>): Begun<R> {
    match lock
    case Held => (match result case Ok(value) => Begins(value) case Err(error) => Refuses(error))
    case Gone => Refuses(Interrupted)
    case Refused => Refuses(Reentrant)
    case WaitFor(owner) => Waits(owner)
  }

  function Beginning(s: State, op: Lifecycle, tenant: TenantId, ctx: Context, cancelled: bool, now: Time, grace: Time)
    : Begun<Subscription>
  {
    if op.Subscribe? && op.periodEnd == Some(0) then Refuses(InvalidSubscription)
    else if cancelled then Refuses(Interrupted)
    else if !ValidInput(op, tenant) then Refuses(InvalidSubscription)
    else Under(Locking(s, tenant, ctx, cancelled), Staged(op, tenant, s.Committed(tenant), now, grace))
  }

  function Writing(s: State, write: StoreWrite, tenant: TenantId, ctx: Context,
          cancelled: bool): Begun<Option<Subscription>>
  {
    if cancelled then Refuses(Interrupted)
    else if !ValidWrite(write, tenant) then Refuses(InvalidSubscription)
    else Under(Locking(s, tenant, ctx, cancelled), Replaced(write, s.Committed(tenant)))
  }

  function AfterBeginning(s: State, tenant: TenantId, owner: CallId, begun: Begun<Subscription>): State {
    if begun.Begins? then Stage(s, tenant, owner, begun.result) else s
  }

  function AfterWriting(s: State, tenant: TenantId, begun: Begun<Option<Subscription>>): State {
    if begun.Begins? then s.WithCommitted(tenant, begun.result) else s
  }

  function Stage(s: State, tenant: TenantId, owner: CallId, staged: Subscription): State {
    s.(pending := s.pending[tenant := Pending(owner, staged)])
  }

  function Finish(s: State, tenant: TenantId, owner: CallId, commit: bool): State {
    if tenant !in s.pending || s.pending[tenant].owner != owner then s
    else
      var next := if commit then s.WithCommitted(tenant, Some(s.pending[tenant].staged)) else s;
      next.(pending := next.pending - {tenant}, closed := next.closed + {owner})
  }

  predicate MayRead(service: ServiceId, tenant: TenantId, owner: CallId, ctx: Context) {
    Marker(service, tenant, owner) in ctx
  }

  function Read(s: State, service: ServiceId, tenant: TenantId, ctx: Context): Option<Subscription> {
    if tenant in s.pending && MayRead(service, tenant, s.pending[tenant].owner, ctx) then Some(s.pending[tenant].staged)
    else s.Committed(tenant)
  }

  // ----- the object -----

  class MemoryService {
    const id: ServiceId
    const grace: Time
    var subscriptions: map<TenantId, Subscription>
    var pending: map<TenantId, Pending>
    var closed: set<CallId>

    constructor (id: ServiceId, grace: Time)
      ensures Value() == State(map[], map[], {}) && this.id == id && this.grace == grace
    {
      this.id, this.grace := id, grace;
      subscriptions, pending, closed := map[], map[], {};
    }

    function Value(): State
      reads this
    {
      State(subscriptions, pending, closed)
    }

    /** What a mutation finds under the lock: it may go on, it must not, or whom it has to wait for. */
    method LockMutation(ctx: Context, tenant: TenantId, cancelled: bool) returns (lock: Lock)
      ensures lock == Locking(Value(), tenant, ctx, cancelled)
    {
      if cancelled {
        return Gone;
      }
      if tenant !in pending {
        return Held;
      }
      var marked := HasBillingHookMarker(ctx);
      if marked {
        return Refused;
      }
      return WaitFor(pending[tenant].owner);
    }

    method HasBillingHookMarker(ctx: Context) returns (marked: bool)
      ensures marked <==> ctx != []
    {
      return |ctx| > 0;
    }

    method SetPeriod(s: Subscription, end: Time) returns (next: Subscription)
      ensures next == WithPeriod(s, end, grace)
    {
      next := s.(periodEnd := Some(end));
      if grace > 0 {
        return next.(graceEnd := Some(end + grace));
      }
      return next.(graceEnd := None);
    }

    method StageLocked(tenant: TenantId, owner: CallId, staged: Subscription)
      modifies this`pending
      ensures Value() == Stage(old(Value()), tenant, owner, staged)
    {
      pending := pending[tenant := Pending(owner, staged)];
    }

    /** Stages a new record; the hook then runs without the lock. */
    method Subscribe(ctx: Context, cancelled: bool, tenant: TenantId, plan: string, periodEnd: Option<Time>,
            owner: CallId, now: Time)
      returns (begun: Begun<Subscription>)
      modifies this
      ensures begun == Beginning(old(Value()), Lifecycle.Subscribe(plan, periodEnd), tenant, ctx, cancelled, now, grace)
      ensures Value() == AfterBeginning(old(Value()), tenant, owner, begun)
    {
      if periodEnd == Some(0) {
        return Refuses(InvalidSubscription);
      }
      if cancelled {
        return Refuses(Interrupted);
      }
      if tenant == "" || plan == "" {
        return Refuses(InvalidSubscription);
      }
      var lock := LockMutation(ctx, tenant, false);
      if !lock.Held? {
        return Under(lock, Err(Reentrant));
      }
      if tenant in subscriptions {
        return Refuses(AlreadyExists);
      }
      var current := Subscription(tenant, plan, Active, now, None, None, None);
      if periodEnd.Some? {
        current := SetPeriod(current, periodEnd.value);
      }
      StageLocked(tenant, owner, current);
      return Begins(current);
    }

    /** Stages the end of an active record. */
    method Unsubscribe(ctx: Context, cancelled: bool, tenant: TenantId, owner: CallId, now: Time)
      returns (begun: Begun<Subscription>)
      modifies this
      ensures begun == Beginning(old(Value()), Lifecycle.Unsubscribe, tenant, ctx, cancelled, now, grace)
      ensures Value() == AfterBeginning(old(Value()), tenant, owner, begun)
    {
      if cancelled {
        return Refuses(Interrupted);
      }
      var lock := LockMutation(ctx, tenant, false);
      if !lock.Held? {
        return Under(lock, Err(Reentrant));
      }
      if tenant !in subscriptions {
        return Refuses(NotFound);
      }
      var current := subscriptions[tenant];
      if !current.status.Active? {
        return Refuses(InvalidTransition);
      }
      current := current.(status := Cancelled, endDate := Some(now));
      StageLocked(tenant, owner, current);
      return Begins(current);
    }

    /** Stages a new period for an active or expired record. */
    method Renew(ctx: Context, cancelled: bool, tenant: TenantId, until: Time, owner: CallId, now: Time)
      returns (begun: Begun<Subscription>)
      modifies this
      ensures begun == Beginning(old(Value()), Lifecycle.Renew(until), tenant, ctx, cancelled, now, grace)
      ensures Value() == AfterBeginning(old(Value()), tenant, owner, begun)
    {
      if cancelled {
        return Refuses(Interrupted);
      }
      if tenant == "" || until == 0 {
        return Refuses(InvalidSubscription);
      }
      var lock := LockMutation(ctx, tenant, false);
      if !lock.Held? {
        return Under(lock, Err(Reentrant));
      }
      if tenant !in subscriptions {
        return Refuses(NotFound);
      }
      var current := subscriptions[tenant];
      if current.status.Cancelled? {
        return Refuses(InvalidTransition);
      }
      current := current.(status := Active, endDate := None);
      current := SetPeriod(current, until);
      StageLocked(tenant, owner, current);
      return Begins(current);
    }

    /** Stages the expiry of an active record. */
    method Expire(ctx: Context, cancelled: bool, tenant: TenantId, owner: CallId, now: Time)
      returns (begun: Begun<Subscription>)
      modifies this
      ensures begun == Beginning(old(Value()), Lifecycle.Expire, tenant, ctx, cancelled, now, grace)
      ensures Value() == AfterBeginning(old(Value()), tenant, owner, begun)
    {
      if cancelled {
        return Refuses(Interrupted);
      }
      if tenant == "" {
        return Refuses(InvalidSubscription);
      }
      var lock := LockMutation(ctx, tenant, false);
      if !lock.Held? {
        return Under(lock, Err(Reentrant));
      }
      if tenant !in subscriptions {
        return Refuses(NotFound);
      }
      var current := subscriptions[tenant];
      if !current.status.Active? {
        return Refuses(InvalidTransition);
      }
      current := current.(status := Expired, endDate := Some(now));
      StageLocked(tenant, owner, current);
      return Begins(current);
    }

    /** One round of ExpireDue's loop, where a record that is not due any more is skipped. */
    method ExpireIfDue(ctx: Context, cancelled: bool, tenant: TenantId, asOf: Time, owner: CallId, now: Time)
      returns (begun: Begun<Subscription>)
      modifies this
      ensures begun == Beginning(old(Value()), Lifecycle.ExpireDue(asOf), tenant, ctx, cancelled, now, grace)
      ensures Value() == AfterBeginning(old(Value()), tenant, owner, begun)
    {
      if cancelled {
        return Refuses(Interrupted);
      }
      var lock := LockMutation(ctx, tenant, false);
      if !lock.Held? {
        return Under(lock, Err(Reentrant));
      }
      if tenant !in subscriptions || !IsDue(subscriptions[tenant], asOf) {
        return Refuses(NotDue);
      }
      var current := subscriptions[tenant];
      current := current.(status := Expired, endDate := ExpirationDate(current));
      StageLocked(tenant, owner, current);
      return Begins(current);
    }

    /** Stages another plan for an active record. */
    method ChangePlan(ctx: Context, cancelled: bool, tenant: TenantId, plan: string, owner: CallId, now: Time)
      returns (begun: Begun<Subscription>)
      modifies this
      ensures begun == Beginning(old(Value()), Lifecycle.ChangePlan(plan), tenant, ctx, cancelled, now, grace)
      ensures Value() == AfterBeginning(old(Value()), tenant, owner, begun)
    {
      if cancelled {
        return Refuses(Interrupted);
      }
      if tenant == "" || plan == "" {
        return Refuses(InvalidSubscription);
      }
      var lock := LockMutation(ctx, tenant, false);
      if !lock.Held? {
        return Under(lock, Err(Reentrant));
      }
      if tenant !in subscriptions {
        return Refuses(NotFound);
      }
      var current := subscriptions[tenant];
      if !current.status.Active? {
        return Refuses(InvalidTransition);
      }
      current := current.(plan := plan);
      StageLocked(tenant, owner, current);
      return Begins(current);
    }

    method FinishPending(tenant: TenantId, owner: CallId, commit: bool)
      modifies this
      ensures Value() == Finish(old(Value()), tenant, owner, commit)
    {
      if tenant !in pending || pending[tenant].owner != owner {
        return;
      }
      if commit {
        subscriptions := subscriptions[tenant := pending[tenant].staged];
      }
      pending := pending - {tenant};
      closed := closed + {owner};
    }

    method Create(ctx: Context, cancelled: bool, subscription: Subscription)
      returns (begun: Begun<Option<Subscription>>)
      modifies this
      ensures begun == Writing(old(Value()), StoreWrite.Create(subscription), subscription.tenant, ctx, cancelled)
      ensures Value() == AfterWriting(old(Value()), subscription.tenant, begun)
    {
      if cancelled {
        return Refuses(Interrupted);
      }
      if subscription.tenant == "" || subscription.plan == "" || subscription.start == 0 {
        return Refuses(InvalidSubscription);
      }
      var lock := LockMutation(ctx, subscription.tenant, false);
      if !lock.Held? {
        return Under(lock, Err(Reentrant));
      }
      if subscription.tenant in subscriptions {
        return Refuses(AlreadyExists);
      }
      subscriptions := subscriptions[subscription.tenant := subscription];
      return Begins(Some(subscription));
    }

    method Update(ctx: Context, cancelled: bool, subscription: Subscription)
      returns (begun: Begun<Option<Subscription>>)
      modifies this
      ensures begun == Writing(old(Value()), StoreWrite.Update(subscription), subscription.tenant, ctx, cancelled)
      ensures Value() == AfterWriting(old(Value()), subscription.tenant, begun)
    {
      if cancelled {
        return Refuses(Interrupted);
      }
      if subscription.tenant == "" || subscription.plan == "" || subscription.start == 0 {
        return Refuses(InvalidSubscription);
      }
      var lock := LockMutation(ctx, subscription.tenant, false);
      if !lock.Held? {
        return Under(lock, Err(Reentrant));
      }
      if subscription.tenant !in subscriptions {
        return Refuses(NotFound);
      }
      subscriptions := subscriptions[subscription.tenant := subscription];
      return Begins(Some(subscription));
    }

    method Delete(ctx: Context, cancelled: bool, tenant: TenantId) returns (begun: Begun<Option<Subscription>>)
      modifies this
      ensures begun == Writing(old(Value()), StoreWrite.Delete, tenant, ctx, cancelled)
      ensures Value() == AfterWriting(old(Value()), tenant, begun)
    {
      if cancelled {
        return Refuses(Interrupted);
      }
      if tenant == "" {
        return Refuses(InvalidSubscription);
      }
      var lock := LockMutation(ctx, tenant, false);
      if !lock.Held? {
        return Under(lock, Err(Reentrant));
      }
      if tenant !in subscriptions {
        return Refuses(NotFound);
      }
      subscriptions := subscriptions - {tenant};
      return Begins(None);
    }

    /** Walks the chain of hook marks from the newest to the oldest. */
    method HookCanRead(ctx: Context, tenant: TenantId, owner: CallId) returns (can: bool)
      ensures can <==> MayRead(id, tenant, owner, ctx)
    {
      var i := 0;
      while i < |ctx|
        invariant 0 <= i <= |ctx|
        invariant Marker(id, tenant, owner) !in ctx[..i]
      {
        if ctx[i].service == id && ctx[i].tenant == tenant && ctx[i].owner == owner {
          return true;
        }
        i := i + 1;
      }
      return false;
    }

    method Get(ctx: Context, tenant: TenantId) returns (record: Option<Subscription>)
      ensures record == Read(Value(), id, tenant, ctx)
    {
      if tenant in pending {
        var overlay := HookCanRead(ctx, tenant, pending[tenant].owner);
        if overlay {
          return Some(pending[tenant].staged);
        }
      }
      return if tenant in subscriptions then Some(subscriptions[tenant]) else None;
    }
  }
}
