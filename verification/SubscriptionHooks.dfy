/**
 Calls of several subscription services interleave, and billing hooks make calls of their own with the
 context they were given. The committed history is serial, failed hooks leave no trace, nobody deadlocks.
 */
module SubscriptionHooks {
  import opened Prelude
  import opened SubscriptionService

  datatype Request = Change(op: Lifecycle) | Write(write: StoreWrite)

  datatype Phase = Asking | Blocked(owner: CallId) | InHook | Returned(error: Option<Error>)

  datatype Call = Call(service: ServiceId, tenant: TenantId, ctx: Context, request: Request, phase: Phase) {
    predicate Running() { !phase.Returned? }

    function At(next: Phase): Call { this.(phase := next) }
  }

  /** A mutation that took effect, with the clock reading it used. */
  datatype Entry = Entry(service: ServiceId, tenant: TenantId, request: Request, now: Time)

  /** `clock` is the reading each staged call took; `log` lists the mutations that took effect, in order. */
  datatype World = World(
    services: map<ServiceId, State>, grace: map<ServiceId, Time>,
    calls: map<CallId, Call>, clock: map<CallId, Time>, log: seq<Entry>)
  {
    function Service(id: ServiceId): State { if id in services then services[id] else State(map[], map[], {}) }

    function Grace(id: ServiceId): Time { if id in grace then grace[id] else 0 }

    function Put(id: ServiceId, s: State): World { this.(services := services[id := s]) }

    function Moved(c: CallId, call: Call): World { this.(calls := calls[c := call]) }
  }

  datatype Step =
    | Start(c: CallId, service: ServiceId, tenant: TenantId, parent: Option<CallId>, request: Request)
    | Try(c: CallId, now: Time)
    | Wake(c: CallId)
    | Cancel(c: CallId)
    | HookReturns(c: CallId, ok: bool)

  // ----- the steps -----

  /** A record is written under the name of its own tenant. */
  predicate IsAddressed(request: Request, tenant: TenantId) {
    request.Write? && !request.write.Delete? ==> request.write.subscription.tenant == tenant
  }

  /** The context a hook receives: its own mark on top of its caller's. */
  function HookContext(c: CallId, call: Call): Context { [Marker(call.service, call.tenant, c)] + call.ctx }

  /** Calls made, directly or not, by the hook of `c` that have not returned. */
  ghost predicate HasNested(w: World, c: CallId) {
    exists d :: d in w.calls && w.calls[d].Running() && HasMark(w.calls[d].ctx, c)
  }

  predicate HasMark(ctx: Context, owner: CallId) { exists i :: 0 <= i < |ctx| && ctx[i].owner == owner }

  /**
   A call starts with no mark or with the context some hook was given, while that hook runs or after it. A hook returns
   whenever it likes, also before the calls made with its context.
   */
  ghost predicate Enabled(w: World, step: Step) {
    match step
    case Start(c, _, tenant, parent, request) => c !in w.calls && IsAddressed(request, tenant) &&
      (parent.Some? ==> parent.value in w.calls && parent.value in w.clock)
    case Try(c, _) => c in w.calls && w.calls[c].phase.Asking?
    case Wake(c) => c in w.calls && w.calls[c].phase.Blocked? &&
      w.calls[c].phase.owner in w.Service(w.calls[c].service).closed
    case Cancel(c) => c in w.calls && (w.calls[c].phase.Asking? || w.calls[c].phase.Blocked?)
    case HookReturns(c, _) => c in w.calls && w.calls[c].phase.InHook?
  }

  /** The record is staged and the hook called. */
  function StageFor(w: World, c: CallId, now: Time, staged: Subscription): World
    requires c in w.calls
  {
    var call := w.calls[c];
    w.(clock := w.clock[c := now])
     .Put(call.service, Stage(w.Service(call.service), call.tenant, c, staged)).Moved(c, call.At(InHook))
  }

  /** A direct write takes effect at once. */
  function WriteFor(w: World, c: CallId, now: Time, record: Option<Subscription>): World
    requires c in w.calls
  {
    var call := w.calls[c];
    w.(log := w.log + [Entry(call.service, call.tenant, call.request, now)])
     .Put(call.service, w.Service(call.service).WithCommitted(call.tenant, record)).Moved(c, call.At(Returned(None)))
  }

  function BeginningOf(w: World, call: Call, now: Time): Begun<Subscription>
    requires call.request.Change?
  {
    Beginning(w.Service(call.service), call.request.op, call.tenant, call.ctx, false, now, w.Grace(call.service))
  }

  function Attempt(w: World, c: CallId, now: Time): World
    requires c in w.calls
  {
    var call := w.calls[c];
    if call.request.Change? then
      var begun := BeginningOf(w, call, now);
      if begun.Refuses? then w.Moved(c, call.At(Returned(Some(begun.error))))
      else if begun.Waits? then w.Moved(c, call.At(Blocked(begun.owner)))
      else StageFor(w, c, now, begun.result)
    else
      var begun := Writing(w.Service(call.service), call.request.write, call.tenant, call.ctx, false);
      if begun.Refuses? then w.Moved(c, call.At(Returned(Some(begun.error))))
      else if begun.Waits? then w.Moved(c, call.At(Blocked(begun.owner)))
      else WriteFor(w, c, now, begun.result)
  }

  /** A hook's success commits the staged record; an error or a panic discards it. Either way waiters are released. */
  function Settle(w: World, c: CallId, ok: bool): World
    requires c in w.calls
  {
    var call := w.calls[c];
    var next := w.Put(call.service, Finish(w.Service(call.service), call.tenant, c, ok));
    if ok then
      var now := if c in w.clock then w.clock[c] else 0;
      next.(log := w.log + [Entry(call.service, call.tenant, call.request, now)]).Moved(c, call.At(Returned(None)))
    else next.Moved(c, call.At(Returned(Some(HookFailed))))
  }

  ghost function Next(w: World, step: Step): World {
    if !Enabled(w, step) then w
    else
      match step
      case Start(c, service, tenant, parent, request) =>
        var ctx := if parent.Some? then HookContext(parent.value, w.calls[parent.value]) else [];
        w.(calls := w.calls[c := Call(service, tenant, ctx, request, Asking)])
      case Try(c, now) => Attempt(w, c, now)
      case Wake(c) => w.Moved(c, w.calls[c].At(Asking))
      case Cancel(c) => w.Moved(c, w.calls[c].At(Returned(Some(Interrupted))))
      case HookReturns(c, ok) => Settle(w, c, ok)
  }

  ghost function Run(w: World, steps: seq<Step>): World
    decreases |steps|
  {
    if steps == [] then w else Run(Next(w, steps[0]), steps[1..])
  }

  ghost predicate Initial(w: World) {
    w.services == map[] && w.calls == map[] && w.clock == map[] && w.log == []
  }

  // ----- the committed history -----

  /** One mutation applied to a record, all at once. */
  function Effect(entry: Entry, current: Option<Subscription>, grace: Time): Option<Subscription> {
    match entry.request
    case Change(op) =>
      (match Staged(op, entry.tenant, current, entry.now, grace)
       case Ok(record) => Some(record)
       case Err(_) => current)
    case Write(write) =>
      (match Replaced(write, current)
       case Ok(record) => record
       case Err(_) => current)
  }

  /** A tenant's record after running the logged mutations one after another. */
  function Replay(log: seq<Entry>, service: ServiceId, tenant: TenantId, grace: Time): Option<Subscription>
    decreases |log|
  {
    if log == [] then None
    else
      var before := Replay(log[..|log| - 1], service, tenant, grace);
      var last := log[|log| - 1];
      if last.service == service && last.tenant == tenant then Effect(last, before, grace) else before
  }

  // ----- the invariant -----

  ghost predicate Serial(w: World) {
    forall service, tenant ::
      w.Service(service).Committed(tenant) == Replay(w.log, service, tenant, w.Grace(service))
  }

  /** Every pending mutation is held by a running hook and was staged from the record that is still committed. */
  ghost predicate PendingOk(w: World, service: ServiceId, tenant: TenantId)
    requires tenant in w.Service(service).pending
  {
    var s := w.Service(service);
    var c := s.pending[tenant].owner;
    c in w.calls && w.calls[c].phase.InHook? && w.calls[c].service == service && w.calls[c].tenant == tenant &&
    w.calls[c].request.Change? && c in w.clock &&
    Staged(w.calls[c].request.op, tenant, s.Committed(tenant), w.clock[c], w.Grace(service)) ==
      Ok(s.pending[tenant].staged)
  }

  predicate IsHeldBy(s: State, tenant: TenantId, owner: CallId) {
    tenant in s.pending && s.pending[tenant].owner == owner
  }

  ghost predicate CallOk(w: World, c: CallId)
    requires c in w.calls
  {
    var call := w.calls[c];
    var s := w.Service(call.service);
    (call.phase.InHook? ==> IsHeldBy(s, call.tenant, c)) &&
    (call.phase.Blocked? ==>
       call.ctx == [] && (call.phase.owner in s.closed || IsHeldBy(s, call.tenant, call.phase.owner)))
  }

  /** Each mark names a call, and below it lies that call's own context. */
  ghost predicate ChainOk(w: World, c: CallId, i: nat)
    requires c in w.calls && i < |w.calls[c].ctx|
  {
    var call, mark := w.calls[c], w.calls[c].ctx[i];
    mark.owner in w.calls && call.ctx[i + 1..] == w.calls[mark.owner].ctx &&
    mark.service == w.calls[mark.owner].service && mark.tenant == w.calls[mark.owner].tenant
  }

  ghost predicate AllPending(w: World) {
    forall service, tenant :: tenant in w.Service(service).pending ==> PendingOk(w, service, tenant)
  }

  ghost predicate AllCalls(w: World) { forall c :: c in w.calls ==> CallOk(w, c) }

  ghost predicate AllChains(w: World) { forall c, i: nat :: c in w.calls && i < |w.calls[c].ctx| ==> ChainOk(w, c, i) }

  ghost predicate Inv(w: World) { Serial(w) && AllPending(w) && AllCalls(w) && AllChains(w) }

  // ----- steps that only move calls -----

  /** Moving a call that holds nothing, to a position that holds nothing. */
  lemma MoveKeeps(w: World, c: CallId, phase: Phase)
    requires Inv(w) && c in w.calls && (w.calls[c].phase.Asking? || w.calls[c].phase.Blocked?)
    requires !phase.InHook?
    requires phase.Blocked? ==>
      w.calls[c].ctx == [] && IsHeldBy(w.Service(w.calls[c].service), w.calls[c].tenant, phase.owner)
    ensures Inv(w.Moved(c, w.calls[c].At(phase)))
  {
    hide Staged, Replay;
    var w' := w.Moved(c, w.calls[c].At(phase));
    assert forall id :: w'.Service(id) == w.Service(id);
    MoveSerial(w, w');
    forall service, tenant | tenant in w'.Service(service).pending
      ensures PendingOk(w', service, tenant)
    {
      assert PendingOk(w, service, tenant);
    }
    forall d | d in w'.calls
      ensures CallOk(w', d)
    {
      assert CallOk(w, d);
    }
    MoveChains(w, c, phase);
  }

  lemma MoveSerial(w: World, w': World)
    requires Serial(w) && w'.services == w.services && w'.grace == w.grace && w'.log == w.log
    ensures Serial(w')
  {
    hide Replay;
    forall service, tenant
      ensures w'.Service(service).Committed(tenant) == Replay(w'.log, service, tenant, w'.Grace(service))
    {
      assert w.Service(service).Committed(tenant) == Replay(w.log, service, tenant, w.Grace(service));
    }
  }

  lemma MoveChains(w: World, c: CallId, phase: Phase)
    requires AllChains(w) && c in w.calls
    ensures AllChains(w.Moved(c, w.calls[c].At(phase)))
  {
    var w' := w.Moved(c, w.calls[c].At(phase));
    forall d, i: nat | d in w'.calls && i < |w'.calls[d].ctx|
      ensures ChainOk(w', d, i)
    {
      assert ChainOk(w, d, i);
    }
  }

  lemma StartKeeps(w: World, c: CallId, service: ServiceId, tenant: TenantId, parent: Option<CallId>, request: Request)
    requires Inv(w) && Enabled(w, Start(c, service, tenant, parent, request))
    ensures Inv(Next(w, Start(c, service, tenant, parent, request)))
  {
    hide Staged, Replay;
    var w' := Next(w, Start(c, service, tenant, parent, request));
    assert forall id :: w'.Service(id) == w.Service(id);
    MoveSerial(w, w');
    forall service, tenant | tenant in w'.Service(service).pending
      ensures PendingOk(w', service, tenant)
    {
      assert PendingOk(w, service, tenant);
    }
    forall d | d in w'.calls
      ensures CallOk(w', d)
    {
      assert d != c ==> CallOk(w, d);
    }
    forall d, i: nat | d in w'.calls && i < |w'.calls[d].ctx|
      ensures ChainOk(w', d, i)
    {
      if d != c {
        assert ChainOk(w, d, i);
      } else if i > 0 {
        assert ChainOk(w, parent.value, i - 1);
      }
    }
  }

  // ----- steps that change a service -----

  lemma ReplayNext(log: seq<Entry>, entry: Entry, service: ServiceId, tenant: TenantId, grace: Time)
    ensures Replay(log + [entry], service, tenant, grace) ==
      if entry.service == service && entry.tenant == tenant
      then Effect(entry, Replay(log, service, tenant, grace), grace)
      else Replay(log, service, tenant, grace)
  {
    assert (log + [entry])[..|log|] == log;
  }

  /** Logging an entry and putting its effect into its tenant's record keeps the history serial. */
  lemma EntrySerial(w: World, w': World, entry: Entry)
    requires Serial(w) && w'.grace == w.grace && w'.log == w.log + [entry]
    requires forall service, tenant ::
      w'.Service(service).Committed(tenant) ==
      if entry.service == service && entry.tenant == tenant
      then Effect(entry, w.Service(service).Committed(tenant), w.Grace(service))
      else w.Service(service).Committed(tenant)
    ensures Serial(w')
  {
    hide Replay, Effect;
    forall service, tenant
      ensures w'.Service(service).Committed(tenant) == Replay(w'.log, service, tenant, w'.Grace(service))
    {
      assert w.Service(service).Committed(tenant) == Replay(w.log, service, tenant, w.Grace(service));
      ReplayNext(w.log, entry, service, tenant, w.Grace(service));
    }
  }

  lemma StagePending(w: World, c: CallId, now: Time, staged: Subscription)
    requires Inv(w) && c in w.calls && w.calls[c].phase.Asking? && w.calls[c].request.Change?
    requires var s, call := w.Service(w.calls[c].service), w.calls[c];
      call.tenant !in s.pending &&
      Staged(call.request.op, call.tenant, s.Committed(call.tenant), now, w.Grace(call.service)) == Ok(staged)
    ensures AllPending(StageFor(w, c, now, staged))
  {
    assert CallOk(w, c);
    hide Staged, Replay, Replaced, Serial, AllChains, AllCalls;
    var w' := StageFor(w, c, now, staged);
    forall service, tenant | tenant in w'.Service(service).pending
      ensures PendingOk(w', service, tenant)
    {
      if tenant in w.Service(service).pending {
        assert PendingOk(w, service, tenant);
      }
    }
  }

  lemma StageCalls(w: World, c: CallId, now: Time, staged: Subscription)
    requires Inv(w) && c in w.calls && w.calls[c].phase.Asking? && w.calls[c].request.Change?
    requires var s, call := w.Service(w.calls[c].service), w.calls[c];
      call.tenant !in s.pending &&
      Staged(call.request.op, call.tenant, s.Committed(call.tenant), now, w.Grace(call.service)) == Ok(staged)
    ensures AllCalls(StageFor(w, c, now, staged))
  {
    hide Staged, Replay, Replaced, Serial, AllChains, AllPending, PendingOk;
    var w' := StageFor(w, c, now, staged);
    assert CallOk(w, c);
    forall d | d in w'.calls
      ensures CallOk(w', d)
    {
      assert CallOk(w, d);
    }
  }

  lemma StageKeeps(w: World, c: CallId, now: Time, staged: Subscription)
    requires Inv(w) && c in w.calls && w.calls[c].phase.Asking? && w.calls[c].request.Change?
    requires var s, call := w.Service(w.calls[c].service), w.calls[c];
      call.tenant !in s.pending &&
      Staged(call.request.op, call.tenant, s.Committed(call.tenant), now, w.Grace(call.service)) == Ok(staged)
    ensures Inv(StageFor(w, c, now, staged))
  {
    var w' := StageFor(w, c, now, staged);
    StagePending(w, c, now, staged);
    StageCalls(w, c, now, staged);
    MoveChains(w, c, InHook);
    SameCallsChains(w.Moved(c, w.calls[c].At(InHook)), w');
    hide Staged, Replay, AllPending, AllCalls, AllChains;
    forall service, tenant
      ensures w'.Service(service).Committed(tenant) == Replay(w'.log, service, tenant, w'.Grace(service))
    {
      assert w.Service(service).Committed(tenant) == Replay(w.log, service, tenant, w.Grace(service));
    }
  }

  lemma SameCallsChains(w: World, w': World)
    requires AllChains(w) && w'.calls == w.calls
    ensures AllChains(w')
  {
    forall d, i: nat | d in w'.calls && i < |w'.calls[d].ctx|
      ensures ChainOk(w', d, i)
    {
      assert ChainOk(w, d, i);
    }
  }

  lemma WritePending(w: World, c: CallId, now: Time, record: Option<Subscription>)
    requires Inv(w) && c in w.calls && w.calls[c].phase.Asking? && w.calls[c].request.Write?
    requires var s, call := w.Service(w.calls[c].service), w.calls[c];
      call.tenant !in s.pending && Replaced(call.request.write, s.Committed(call.tenant)) == Ok(record)
    ensures AllPending(WriteFor(w, c, now, record))
  {
    assert CallOk(w, c);
    hide Staged, Replay, Replaced, Serial, AllChains, AllCalls;
    var w' := WriteFor(w, c, now, record);
    forall service, tenant | tenant in w'.Service(service).pending
      ensures PendingOk(w', service, tenant)
    {
      if tenant in w.Service(service).pending {
        assert PendingOk(w, service, tenant);
      }
    }
  }

  lemma WriteCalls(w: World, c: CallId, now: Time, record: Option<Subscription>)
    requires Inv(w) && c in w.calls && w.calls[c].phase.Asking? && w.calls[c].request.Write?
    requires var s, call := w.Service(w.calls[c].service), w.calls[c];
      call.tenant !in s.pending && Replaced(call.request.write, s.Committed(call.tenant)) == Ok(record)
    ensures AllCalls(WriteFor(w, c, now, record))
  {
    hide Staged, Replay, Replaced, Serial, AllChains, AllPending, PendingOk;
    var w' := WriteFor(w, c, now, record);
    assert CallOk(w, c);
    forall d | d in w'.calls
      ensures CallOk(w', d)
    {
      assert CallOk(w, d);
    }
  }

  lemma WriteKeeps(w: World, c: CallId, now: Time, record: Option<Subscription>)
    requires Inv(w) && c in w.calls && w.calls[c].phase.Asking? && w.calls[c].request.Write?
    requires var s, call := w.Service(w.calls[c].service), w.calls[c];
      call.tenant !in s.pending && Replaced(call.request.write, s.Committed(call.tenant)) == Ok(record)
    ensures Inv(WriteFor(w, c, now, record))
  {
    var call, w' := w.calls[c], WriteFor(w, c, now, record);
    EntrySerial(w, w', Entry(call.service, call.tenant, call.request, now));
    WritePending(w, c, now, record);
    WriteCalls(w, c, now, record);
    hide Serial, AllPending, AllCalls, CallOk, PendingOk;
    MoveChains(w, c, Returned(None));
    SameCallsChains(w.Moved(c, w.calls[c].At(Returned(None))), w');
  }

  lemma SettlePending(w: World, c: CallId, ok: bool)
    requires Inv(w) && c in w.calls && w.calls[c].phase.InHook?
    ensures AllPending(Settle(w, c, ok))
  {
    assert CallOk(w, c);
    hide Staged, Replay, Replaced, Serial, AllChains, AllCalls;
    var w' := Settle(w, c, ok);
    forall service, tenant | tenant in w'.Service(service).pending
      ensures PendingOk(w', service, tenant)
    {
      if tenant in w.Service(service).pending {
        assert PendingOk(w, service, tenant);
      }
    }
  }

  lemma SettleCalls(w: World, c: CallId, ok: bool)
    requires Inv(w) && c in w.calls && w.calls[c].phase.InHook?
    ensures AllCalls(Settle(w, c, ok))
  {
    hide Staged, Replay, Replaced, Serial, AllChains, AllPending, PendingOk;
    var w' := Settle(w, c, ok);
    assert CallOk(w, c);
    forall d | d in w'.calls
      ensures CallOk(w', d)
    {
      assert CallOk(w, d);
    }
  }

  lemma SettleKeeps(w: World, c: CallId, ok: bool)
    requires Inv(w) && c in w.calls && w.calls[c].phase.InHook?
    ensures Inv(Settle(w, c, ok))
  {
    var call, w' := w.calls[c], Settle(w, c, ok);
    assert CallOk(w, c) && PendingOk(w, call.service, call.tenant);
    hide Serial, AllPending, AllCalls, CallOk, PendingOk, Staged, AllChains, Finish;
    SettleSerial(w, c, ok);
    SettlePending(w, c, ok);
    SettleCalls(w, c, ok);
    MoveChains(w, c, w'.calls[c].phase);
    SameCallsChains(w.Moved(c, w.calls[c].At(w'.calls[c].phase)), w');
  }

  lemma SettleSerial(w: World, c: CallId, ok: bool)
    requires Serial(w) && c in w.calls && w.calls[c].phase.InHook?
    requires var call :=
      w.calls[c]; IsHeldBy(w.Service(call.service), call.tenant, c) && PendingOk(w, call.service, call.tenant)
    ensures Serial(Settle(w, c, ok))
  {
    hide Staged, Replay;
    var call, w' := w.calls[c], Settle(w, c, ok);
    if ok {
      EntrySerial(w, w', Entry(call.service, call.tenant, call.request, w.clock[c]));
    } else {
      forall service, tenant
        ensures w'.Service(service).Committed(tenant) == Replay(w'.log, service, tenant, w'.Grace(service))
      {
        assert w.Service(service).Committed(tenant) == Replay(w.log, service, tenant, w.Grace(service));
      }
    }
  }

  lemma AttemptKeeps(w: World, c: CallId, now: Time)
    requires Inv(w) && c in w.calls && w.calls[c].phase.Asking?
    ensures Inv(Attempt(w, c, now))
  {
    var call := w.calls[c];
    AttemptFinds(w, c, now);
    hide Inv, Beginning, Writing;
    if call.request.Change? {
      var begun := BeginningOf(w, call, now);
      if begun.Refuses? {
        MoveKeeps(w, c, Returned(Some(begun.error)));
      } else if begun.Waits? {
        MoveKeeps(w, c, Blocked(begun.owner));
      } else {
        StageKeeps(w, c, now, begun.result);
      }
    } else {
      var begun := Writing(w.Service(call.service), call.request.write, call.tenant, call.ctx, false);
      if begun.Refuses? {
        MoveKeeps(w, c, Returned(Some(begun.error)));
      } else if begun.Waits? {
        MoveKeeps(w, c, Blocked(begun.owner));
      } else {
        WriteKeeps(w, c, now, begun.result);
      }
    }
  }

  /**
   Whoever gets on found no pending mutation; whoever waits has no mark and waits for the owner of the one there is.
   */
  lemma AttemptFinds(w: World, c: CallId, now: Time)
    requires c in w.calls
    ensures var call := w.calls[c]; var s := w.Service(call.service);
      call.request.Change? ==>
        var begun := BeginningOf(w, call, now);
        (begun.Begins? ==>
          (call.tenant !in s.pending &&
           Staged(call.request.op, call.tenant, s.Committed(call.tenant), now, w.Grace(call.service)) ==
             Ok(begun.result))) &&
        (begun.Waits? ==> call.ctx == [] && IsHeldBy(s, call.tenant, begun.owner))
    ensures var call := w.calls[c]; var s := w.Service(call.service);
      call.request.Write? ==>
        var begun := Writing(s, call.request.write, call.tenant, call.ctx, false);
        (begun.Begins? ==>
          (call.tenant !in s.pending && Replaced(call.request.write, s.Committed(call.tenant)) == Ok(begun.result))) &&
        (begun.Waits? ==> call.ctx == [] && IsHeldBy(s, call.tenant, begun.owner))
  {
    hide Staged, Replaced, ValidInput, ValidWrite;
  }

  lemma NextKeeps(w: World, step: Step)
    requires Inv(w)
    ensures Inv(Next(w, step))
  {
    hide Inv, Attempt, Settle;
    if Enabled(w, step) {
      match step
      case Start(c, service, tenant, parent, request) => StartKeeps(w, c, service, tenant, parent, request);
      case Try(c, now) => AttemptKeeps(w, c, now);
      case Wake(c) => MoveKeeps(w, c, Asking);
      case Cancel(c) => MoveKeeps(w, c, Returned(Some(Interrupted)));
      case HookReturns(c, ok) => SettleKeeps(w, c, ok);
    }
  }

  lemma InitialInv(w: World)
    requires Initial(w)
    ensures Inv(w)
  {
  }

  lemma {:induction false} RunKeeps(w: World, steps: seq<Step>)
    requires Inv(w)
    ensures Inv(Run(w, steps))
    decreases |steps|
  {
    hide Inv, Next;
    if steps != [] {
      NextKeeps(w, steps[0]);
      RunKeeps(Next(w, steps[0]), steps[1..]);
    }
  }

  // ----- what holds of every run -----

  /**
   In every run each tenant's committed record is what the mutations that took effect leave when run one
   after another: those of returned hooks that succeeded and the direct writes, nothing else.
   */
  lemma CommittedHistoryIsSerial(w: World, steps: seq<Step>, service: ServiceId, tenant: TenantId)
    requires Initial(w)
    ensures var w' := Run(w, steps);
      w'.Service(service).Committed(tenant) == Replay(w'.log, service, tenant, w'.Grace(service))
  {
    InitialInv(w);
    RunKeeps(w, steps);
  }

  predicate WritesConsistent(log: seq<Entry>) {
    forall i :: 0 <= i < |log| && log[i].request.Write? && !log[i].request.write.Delete? ==>
      IsConsistent(log[i].request.write.subscription)
  }

  lemma {:induction false} ReplayIsConsistent(log: seq<Entry>, service: ServiceId, tenant: TenantId, grace: Time)
    requires WritesConsistent(log)
    ensures var record := Replay(log, service, tenant, grace); record.Some? ==> IsConsistent(record.value)
    decreases |log|
  {
    hide IsConsistent, Staged;
    if log != [] {
      var before, last := log[..|log| - 1], log[|log| - 1];
      ReplayIsConsistent(before, service, tenant, grace);
      if last.request.Change? {
        LifecycleGuarantees(last.request.op, tenant, Replay(before, service, tenant, grace), last.now, grace);
      }
    }
  }

  /**
   In every run whose direct writes are consistent, every committed record is: ended exactly when it is not active, and
   with no grace window that ends before its period.
   */
  lemma CommittedIsConsistent(w: World, steps: seq<Step>, service: ServiceId, tenant: TenantId)
    requires Initial(w) && WritesConsistent(Run(w, steps).log)
    ensures var record := Run(w, steps).Service(service).Committed(tenant); record.Some? ==> IsConsistent(record.value)
  {
    CommittedHistoryIsSerial(w, steps, service, tenant);
    hide Run, IsConsistent, Replay;
    ReplayIsConsistent(Run(w, steps).log, service, tenant, Run(w, steps).Grace(service));
  }

  /** While a mutation is pending only its own successful hook changes the record, and then to what it staged. */
  lemma PendingFreezesRecord(w: World, steps: seq<Step>, w': World, step: Step, service: ServiceId, tenant: TenantId)
    requires Initial(w) && w' == Run(w, steps) && tenant in w'.Service(service).pending
    requires Next(w', step).Service(service).Committed(tenant) != w'.Service(service).Committed(tenant)
    ensures step == HookReturns(w'.Service(service).pending[tenant].owner, true)
    ensures Next(w', step).Service(service).Committed(tenant) == Some(w'.Service(service).pending[tenant].staged)
    ensures tenant !in Next(w', step).Service(service).pending
  {
    InitialInv(w);
    RunKeeps(w, steps);
    hide Run, Attempt, Settle, Inv;
    match step
    case Start(_, _, _, _, _) =>
    case Try(c, now) =>
      if c in w'.calls {
        AttemptFrozen(w', c, now, service, tenant);
      }
    case Wake(_) =>
    case Cancel(_) =>
    case HookReturns(c, ok) =>
      if c in w'.calls {
        SettleFrozen(w', c, ok, service, tenant);
      }
  }

  lemma AttemptFrozen(w: World, c: CallId, now: Time, service: ServiceId, tenant: TenantId)
    requires c in w.calls && tenant in w.Service(service).pending
    ensures Attempt(w, c, now).Service(service).Committed(tenant) == w.Service(service).Committed(tenant)
  {
    AttemptFinds(w, c, now);
    hide Staged, Replaced, Beginning, Writing;
  }

  lemma SettleFrozen(w: World, c: CallId, ok: bool, service: ServiceId, tenant: TenantId)
    requires c in w.calls && tenant in w.Service(service).pending
    ensures var settled, pending := Settle(w, c, ok).Service(service), w.Service(service).pending[tenant];
      settled.Committed(tenant) == w.Service(service).Committed(tenant) ||
      (ok && c == pending.owner && settled.Committed(tenant) == Some(pending.staged) && tenant !in settled.pending)
  {
  }

  /** A hook that fails leaves no trace: the records and the history stay, and only the pending mark goes. */
  lemma FailedHookLeavesNoTrace(w: World, steps: seq<Step>, w': World, c: CallId)
    requires Initial(w) && w' == Run(w, steps) && Enabled(w', HookReturns(c, false))
    ensures var next, service := Next(w', HookReturns(c, false)), w'.calls[c].service;
      next.log == w'.log &&
      (forall id :: next.Service(id).subscriptions == w'.Service(id).subscriptions) &&
      next.Service(service).pending == w'.Service(service).pending - {w'.calls[c].tenant} &&
      next.Service(service).closed == w'.Service(service).closed + {c} &&
      next.calls[c].phase == Returned(Some(HookFailed))
  {
    InitialInv(w);
    RunKeeps(w, steps);
    assert CallOk(w', c);
    hide Run;
  }

  /** A call reads a staged record exactly when it runs inside the hook of that pending mutation. */
  lemma OnlyOwnHookReadsStaged(w: World, steps: seq<Step>, w': World, c: CallId, service: ServiceId, tenant: TenantId)
    requires Initial(w) && w' == Run(w, steps) && c in w'.calls && tenant in w'.Service(service).pending
    ensures Read(w'.Service(service), service, tenant, w'.calls[c].ctx) ==
      if HasMark(w'.calls[c].ctx, w'.Service(service).pending[tenant].owner)
      then Some(w'.Service(service).pending[tenant].staged) else w'.Service(service).Committed(tenant)
  {
    InitialInv(w);
    RunKeeps(w, steps);
    assert PendingOk(w', service, tenant);
    hide Run, Staged;
    var owner, ctx := w'.Service(service).pending[tenant].owner, w'.calls[c].ctx;
    if HasMark(ctx, owner) {
      var i: nat :| i < |ctx| && ctx[i].owner == owner;
      assert ChainOk(w', c, i);
      assert ctx[i] == Marker(service, tenant, owner);
    }
  }

  // ----- no deadlock -----

  /** A call made inside a hook never waits, so whoever waits holds nothing. */
  lemma WaitersHoldNothing(w: World, steps: seq<Step>, w': World, c: CallId)
    requires Initial(w) && w' == Run(w, steps) && c in w'.calls && w'.calls[c].phase.Blocked?
    ensures w'.calls[c].ctx == []
    ensures forall service, tenant :: tenant in w'.Service(service).pending ==>
      w'.Service(service).pending[tenant].owner != c
    ensures var owner := w'.calls[c].phase.owner;
      owner in w'.Service(w'.calls[c].service).closed || (owner in w'.calls && w'.calls[owner].phase.InHook?)
  {
    InitialInv(w);
    RunKeeps(w, steps);
    assert CallOk(w', c);
    forall service, tenant | tenant in w'.Service(service).pending
      ensures w'.Service(service).pending[tenant].owner != c
    {
      assert PendingOk(w', service, tenant);
    }
    if w'.calls[c].phase.owner !in w'.Service(w'.calls[c].service).closed {
      assert PendingOk(w', w'.calls[c].service, w'.calls[c].tenant);
    }
  }

  /** A call inside the hook of `owner` carries a longer context. */
  lemma NestedIsDeeper(w: World, c: CallId, owner: CallId)
    requires AllChains(w) && c in w.calls && HasMark(w.calls[c].ctx, owner)
    ensures owner in w.calls && |w.calls[c].ctx| > |w.calls[owner].ctx|
  {
    var ctx := w.calls[c].ctx;
    var i: nat :| i < |ctx| && ctx[i].owner == owner;
    assert ChainOk(w, c, i);
  }

  /** Among the candidates, one whose context is longest, found by climbing from `start`. */
  lemma {:induction false} Innermost(w: World, candidates: set<CallId>, start: CallId) returns (c: CallId)
    requires start in candidates && candidates <= w.calls.Keys
    ensures c in candidates && |w.calls[start].ctx| <= |w.calls[c].ctx|
    ensures forall d :: d in candidates ==> |w.calls[d].ctx| <= |w.calls[c].ctx|
    decreases |candidates|
  {
    c := start;
    if d :| d in candidates && |w.calls[d].ctx| > |w.calls[start].ctx| {
      c := Innermost(w, candidates - {start}, d);
    }
  }

  /** The call can take its next step by itself; a hook, even if it first waits for all calls made with its context. */
  ghost predicate CanGoOn(w: World, c: CallId) {
    Enabled(w, Try(c, 0)) || Enabled(w, Wake(c)) ||
    (Enabled(w, HookReturns(c, true)) && Enabled(w, HookReturns(c, false)) && !HasNested(w, c))
  }

  /** In every run, as long as some call has not returned, some call can go on by itself. */
  lemma NoDeadlock(w: World, steps: seq<Step>, w': World, unfinished: CallId) returns (c: CallId)
    requires Initial(w) && w' == Run(w, steps)
    requires unfinished in w'.calls && w'.calls[unfinished].Running()
    ensures c in w'.calls && w'.calls[c].Running() && CanGoOn(w', c)
  {
    InitialInv(w);
    RunKeeps(w, steps);
    hide Run, Serial, Staged;
    c := SomeoneGoesOn(w', unfinished);
  }

  lemma SomeoneGoesOn(w: World, unfinished: CallId) returns (c: CallId)
    requires Inv(w) && unfinished in w.calls && w.calls[unfinished].Running()
    ensures c in w.calls && w.calls[c].Running() && CanGoOn(w, c)
  {
    hide Serial, Staged;
    if d :| d in w.calls && w.calls[d].Running() && !w.calls[d].phase.InHook? && CanGoOn(w, d) {
      return d;
    }
    var hooks := set d | d in w.calls && w.calls[d].phase.InHook?;
    var owner := unfinished;
    if !w.calls[unfinished].phase.InHook? {
      assert CallOk(w, unfinished) && !CanGoOn(w, unfinished);
      assert w.calls[unfinished].phase.Blocked?;
      assert PendingOk(w, w.calls[unfinished].service, w.calls[unfinished].tenant);
      owner := w.calls[unfinished].phase.owner;
    }
    assert owner in hooks;
    c := Innermost(w, hooks, owner);
    InnermostReturns(w, c);
  }

  lemma InnermostReturns(w: World, c: CallId)
    requires AllChains(w) && AllCalls(w) && c in w.calls && w.calls[c].phase.InHook?
    requires forall d :: d in w.calls && w.calls[d].phase.InHook? ==> |w.calls[d].ctx| <= |w.calls[c].ctx|
    requires forall d :: d in w.calls && w.calls[d].Running() && !w.calls[d].phase.InHook? ==> !CanGoOn(w, d)
    ensures !HasNested(w, c)
  {
    forall d | d in w.calls
      ensures !(w.calls[d].Running() && HasMark(w.calls[d].ctx, c))
    {
      assert CallOk(w, d);
      if HasMark(w.calls[d].ctx, c) {
        NestedIsDeeper(w, d, c);
        assert w.calls[d].ctx != [];
        assert w.calls[d].phase.Asking? ==> Enabled(w, Try(d, 0));
      }
    }
  }

  /** Once the owner a call waits for has finished, in whatever way, the waiter can wake. */
  lemma FinishReleasesWaiters(w: World, steps: seq<Step>, w': World, waiter: CallId, ok: bool)
    requires Initial(w) && w' == Run(w, steps) && waiter in w'.calls && w'.calls[waiter].phase.Blocked?
    requires Enabled(w', HookReturns(w'.calls[waiter].phase.owner, ok))
    ensures Enabled(Next(w', HookReturns(w'.calls[waiter].phase.owner, ok)), Wake(waiter))
  {
    InitialInv(w);
    RunKeeps(w, steps);
    assert CallOk(w', waiter) && CallOk(w', w'.calls[waiter].phase.owner);
    hide Run, Staged;
    if w'.calls[waiter].phase.owner !in w'.Service(w'.calls[waiter].service).closed {
      assert PendingOk(w', w'.calls[waiter].service, w'.calls[waiter].tenant);
    }
  }
}
