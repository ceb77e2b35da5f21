/**
 * The app-server multiplexer of pool_server.py, step by step: what one handled client message, backend message
 * or backend loss does to its tables, to the pool and to what the client is sent. Functions only; the server
 * object is proved to perform them, and the laws about them are proved over all interleavings.
 */
module Multiplexer {
  import opened Wrappers
  import opened Text
  import opened Dicts
  import opened AccountUsages
  import opened Pool
  import opened Router
  import R = FanOutResults

  // ---------------------------------------------------------------- messages

  datatype Verb = NoVerb | BadVerb | Verb(name: string)

  datatype ClientMessage = ClientMessage(id: Id, verb: Verb, thread: Option<ThreadId>, body: string)

  /** A backend's answer: what the server looks at, what a combined reply takes from it, and the text passed on. */
  datatype Response = Response(
    id: Id, isError: bool, code: Option<int>, thread: Option<ThreadId>, says: R.Answer, body: string)

  datatype BackendMessage =
    | Answered(response: Response)
    | Calls(id: Id, body: string)
    | Notifies(started: Option<ThreadId>, body: string)

  datatype Content =
    | InitialResult(backend: string)
    | ErrorContent(code: int)
    | FromBackend(response: Response)
    | Combined(reply: R.Combined)

  /** What the client is sent: replies, requests of backends, notifications. */
  datatype Output =
    | Reply(id: Id, content: Content)
    | ServerCall(forwarded: string, body: string)
    | Notice(body: string)

  const NO_ROUTE := -32004
  const BACKEND_FAILED := -32005
  /** The error recorded for a share of a lost backend, without its message. */
  const LOST_ERROR := "{code: -32005}"

  // ---------------------------------------------------------------- state

  /** (profile, id text) as `_pending_key` builds it. */
  type Key = (string, string)

  datatype Pending = Pending(client: Id, lease: Option<nat>)

  /** Shared by all keys of one fanned-out request; tables refer to it by its number. */
  datatype Aggregate = Aggregate(client: Id, expected: int, responses: seq<Response>)

  datatype Reservation = Reservation(lease: nat, profile: string)

  datatype Mux = Mux(
    backends: Dict<string, bool>,
    pending: Dict<Key, Pending>,
    aggPending: Dict<Key, nat>,
    aggs: seq<Aggregate>,
    routes: Routes,
    controlLease: Option<Reservation>,
    pool: PoolState,
    out: seq<Output>)

  datatype Config = Config(policy: PoolPolicy, pid: int)

  datatype Fetch = Fetch(profiles: seq<string>, usages: map<string, AccountUsage>)

  /** What the outside decides during one handled message: the fetch, process starts and deaths, and writes. */
  datatype Luck = Luck(
    fetch: Option<Fetch>,  // none: no saved profile, or the fetch failed
    starts: bool,          // a backend started for a selection comes up
    dies: bool,            // the chosen backend is dead when the message is about to be written
    restarts: bool,        // a backend started right before the write comes up
    written: bool,         // the write succeeds
    listed: nat)           // in a fan-out, the number of writes before the first that fails

  function MessageKey(p: string, id: Id): Key {
    (p, IdKey(id))
  }

  predicate Running(s: Mux, p: string) {
    Get(s.backends, p) == Some(true)
  }

  predicate BackendHealthy(s: Mux, p: string, w: World) {
    p in s.pool.health ==> HealthEligible(s.pool.health[p], w.now)
  }

  function Written(s: Mux, o: Output): Mux {
    s.(out := s.out + [o])
  }

  function Freed(s: Mux, lease: Option<nat>): Mux {
    if lease.Some? then s.(pool := Release(s.pool, lease.value)) else s
  }

  // ---------------------------------------------------------------- losing a backend

  function FailPending(pending: Dict<Key, Pending>, p: string): (r: (Dict<Key, Pending>, seq<Output>, seq<nat>)) {
    if pending == [] then ([], [], [])
    else
      var (kept, replies, freed) := FailPending(pending[..|pending| - 1], p);
      var (key, entry) := pending[|pending| - 1];
      if key.0 != p then (kept + [(key, entry)], replies, freed)
      else (kept, replies + [Reply(entry.client, ErrorContent(BACKEND_FAILED))],
            if entry.lease.Some? then freed + [entry.lease.value] else freed)
  }

  function ReleaseAll(pool: PoolState, leases: seq<nat>): PoolState {
    if leases == [] then pool
    else Release(ReleaseAll(pool, leases[..|leases| - 1]), leases[|leases| - 1])
  }

  function Says(responses: seq<Response>): seq<R.Answer> {
    seq(|responses|, i requires 0 <= i < |responses| => responses[i].says)
  }

  /** The reply to a fanned-out request: `_finish_aggregate` of its responses. */
  function ListReply(a: Aggregate): Output {
    Reply(a.client, Combined(R.Finish(Says(a.responses))))
  }

  /** One more response for an aggregate; the reply goes out when none is expected any more. */
  function AnswerAggregate(aggs: seq<Aggregate>, i: nat, r: Response): (seq<Aggregate>, seq<Output>) {
    if i >= |aggs| then (aggs, [])
    else
      var a := aggs[i].(expected := aggs[i].expected - 1, responses := aggs[i].responses + [r]);
      (aggs[i := a], if a.expected == 0 then [ListReply(a)] else [])
  }

  function LostResponse(client: Id): Response {
    Response(client, true, Some(BACKEND_FAILED), None, R.Answer(None, Some(LOST_ERROR)), "")
  }

  function FailAggregates(aggPending: Dict<Key, nat>, aggs: seq<Aggregate>, p: string)
    : (r: (Dict<Key, nat>, seq<Aggregate>, seq<Output>))
    ensures |r.1| == |aggs|
  {
    if aggPending == [] then ([], aggs, [])
    else
      var (kept, mid, replies) := FailAggregates(aggPending[..|aggPending| - 1], aggs, p);
      var (key, i) := aggPending[|aggPending| - 1];
      if key.0 != p then (kept + [(key, i)], mid, replies)
      else
        var (after, more) := AnswerAggregate(mid, i, LostResponse(if i < |mid| then mid[i].client else IdNull));
        (kept, after, replies + more)
  }

  /** `_fail_backend` */
  function FailBackend(s: Mux, p: string): Mux {
    var (pending, lost, freed) := FailPending(s.pending, p);
    var (aggPending, aggs, finished) := FailAggregates(s.aggPending, s.aggs, p);
    s.(pending := pending, pool := ReleaseAll(s.pool, freed),
       aggPending := aggPending, aggs := aggs, out := s.out + lost + finished)
  }

  /** `_retire_backend` */
  function Retire(s: Mux, p: string, w: World, cfg: Config): Mux {
    if !Has(s.backends, p) then s
    else
      var s1 := s.(backends := Pop(s.backends, p));
      var s2 := if s1.routes.control == Some(p) && s1.controlLease.Some?
                then Freed(s1, Some(s1.controlLease.value.lease)).(controlLease := None) else s1;
      var s3 := s2.(pool := MarkFailure(s2.pool, cfg.policy, p, "process", None, w));
      FailBackend(s3, p)
  }

  // ---------------------------------------------------------------- reaching a backend

  /** `_ensure_backend`: false when a new process was needed and did not start. */
  function Ensure(s: Mux, p: string, starts: bool, w: World, cfg: Config): (Mux, bool) {
    if Running(s, p) then (s, true)
    else
      var s1 := Retire(s, p, w, cfg);
      if starts then (s1.(backends := Put(s1.backends, p, true)), true) else (s1, false)
  }

  function SelectRequest(routeKey: Option<string>, migrate: bool, cfg: Config): ReserveRequest {
    ReserveRequest(routeKey, Pid(cfg.pid), migrate, routeKey.GetOr("") != "" && !migrate)
  }

  /** A lease just taken is kept only if its backend runs or comes up. */
  function Admit(s: Mux, lease: PoolLease, starts: bool, w: World, cfg: Config): (Mux, Option<PoolLease>) {
    var (s1, up) := Ensure(s, lease.profile, starts, w, cfg);
    if up then (s1, Some(lease)) else (Freed(s1, Some(lease.id)), None)
  }

  /** The reservation of a selection. */
  function Take(s: Mux, routeKey: Option<string>, migrate: bool, luck: Luck, w: World, cfg: Config)
    : (Mux, Option<PoolLease>)
  {
    if luck.fetch.None? then (s, None)
    else
      var fetch := luck.fetch.value;
      var (pool, r) := Reserve(s.pool, cfg.policy, fetch.profiles, fetch.usages, SelectRequest(routeKey, migrate, cfg),
        w);
      if r.Reserved? then (s.(pool := pool), Some(r.lease)) else (s, None)
  }

  /** `_select_backend`: the lease taken, on a backend that runs. */
  function Select(s: Mux, routeKey: Option<string>, migrate: bool, luck: Luck, w: World, cfg: Config)
    : (Mux, Option<PoolLease>)
  {
    var (s1, lease) := Take(s, routeKey, migrate, luck, w, cfg);
    if lease.Some? then Admit(s1, lease.value, luck.starts, w, cfg) else (s1, None)
  }

  /** The process of this backend has ended, whether noticed or not. */
  function Died(s: Mux, p: string): Mux {
    if Has(s.backends, p) then s.(backends := Put(s.backends, p, false)) else s
  }

  /** `_ensure_backend` right before a write: the backend may have died since it was chosen. */
  function Reach(s: Mux, p: string, luck: Luck, w: World, cfg: Config): (Mux, bool) {
    Ensure(if luck.dies then Died(s, p) else s, p, luck.restarts, w, cfg)
  }

  function Tracked(s: Mux, p: string, id: Id, lease: Option<nat>): Mux {
    s.(pending := Put(s.pending, MessageKey(p, id), Pending(id, lease)))
  }

  function Untracked(s: Mux, p: string, id: Id): Mux {
    s.(pending := Pop(s.pending, MessageKey(p, id)))
  }

  /** The write itself. When it fails, the request is forgotten, its lease released and the backend retired. */
  function Write(
    s: Mux, p: string, id: Id, lease: Option<nat>, track: bool, luck: Luck, w: World, cfg: Config): (Mux, bool) {
    var tracked := track && id != IdNull;
    var s1 := if tracked then Tracked(s, p, id, lease) else s;
    if luck.written then (s1, true)
    else (Retire(Freed(if tracked then Untracked(s1, p, id) else s1, lease), p, w, cfg), false)
  }

  /** `_send_to_backend`: false when it raised. */
  function Send(
    s: Mux, p: string, id: Id, lease: Option<nat>, track: bool, luck: Luck, w: World, cfg: Config): (Mux, bool) {
    var (s1, up) := Reach(s, p, luck, w, cfg);
    if up then Write(s1, p, id, lease, track, luck, w, cfg) else (s1, false)
  }

  // ---------------------------------------------------------------- client messages

  const CONTROL_KEY := "__control__"

  /** Gives up the control lease and takes a new one: the backend that serves global requests moves. */
  function MoveControl(s: Mux, luck: Luck, w: World, cfg: Config): (Mux, bool) {
    var s1 := if s.controlLease.Some? then Freed(s, Some(s.controlLease.value.lease)).(controlLease := None) else s;
    var (s2, lease) := Select(s1, Some(CONTROL_KEY), s.routes.control.Some?, luck, w, cfg);
    if lease.None? then (s2, false)
    else
      (s2.(routes := s2.routes.(control := Some(lease.value.profile)),
           controlLease := Some(Reservation(lease.value.id, lease.value.profile))), true)
  }

  /** The control backend for an `initialize`: moved when there is none or it is unhealthy. */
  function InitialControl(s: Mux, luck: Luck, w: World, cfg: Config): (Mux, bool) {
    if s.routes.control.None? || !BackendHealthy(s, s.routes.control.value, w) then MoveControl(s, luck, w, cfg)
      else (s, true)
  }

  function HandleInitialize(s: Mux, id: Id, luck: Luck, w: World, cfg: Config): (Mux, bool) {
    var (s1, ok) := InitialControl(s, luck, w, cfg);
    if !ok || s1.routes.control.None? then (s1, false)
    else
      var p := s1.routes.control.value;
      var (s2, up) := Reach(s1, p, luck, w, cfg);
      if up then (Written(s2, Reply(id, InitialResult(p))), true) else (s2, false)
  }

  function RunningBackends(backends: Dict<string, bool>): seq<string> {
    if backends == [] then []
    else
      var front, last := backends[..|backends| - 1], backends[|backends| - 1];
      RunningBackends(front) + if last.1 then [last.0] else []
  }

  /** The id under which one backend is asked its share of a fanned-out request. */
  function ListId(client: Id, index: nat, p: string): Id {
    IdStr("pool-list:" + ((Str(client) + ":" + Decimal(index)) + (":" + p)))
  }

  function ListKey(client: Id, index: nat, p: string): Key {
    MessageKey(p, ListId(client, index, p))
  }

  /** The first n backends asked. */
  function Registered(aggPending: Dict<Key, nat>, running: seq<string>, client: Id, agg: nat, n: nat): Dict<Key, nat>
    requires n <= |running|
  {
    if n == 0 then aggPending
    else Put(Registered(aggPending, running, client, agg, n - 1), ListKey(client, n - 1, running[n - 1]), agg)
  }

  /** A write that fails ends the loop after its key is registered. */
  function FanOut(s: Mux, id: Id, luck: Luck): (Mux, bool) {
    var running := RunningBackends(s.backends);
    var agg := |s.aggs|;
    var asked := if luck.listed < |running| then luck.listed + 1 else |running|;
    (s.(aggs := s.aggs + [Aggregate(id, |running|, [])],
        aggPending := Registered(s.aggPending, running, id, agg, asked)),
     luck.listed >= |running|)
  }

  /** The control backend for a global request: moved also when it is not running. */
  function Controlled(s: Mux, luck: Luck, w: World, cfg: Config): (Mux, bool) {
    var control := s.routes.control;
    if control.None? || !Running(s, control.value) || !BackendHealthy(s, control.value, w)
    then MoveControl(s, luck, w, cfg) else (s, true)
  }

  function HandleGlobal(s: Mux, verb: string, id: Id, luck: Luck, w: World, cfg: Config): (Mux, bool) {
    var (s1, ok) := Controlled(s, luck, w, cfg);
    if !ok || s1.routes.control.None? then (s1, false)
    else if verb != "thread/list" || RunningBackends(s1.backends) == []
    then Send(s1, s1.routes.control.value, id, None, true, luck, w, cfg)
    else FanOut(s1, id, luck)
  }

  /** A thread's request goes to its backend; when that is down or unhealthy the thread moves to another. */
  function HandleRouted(
    s: Mux, p: string, routeKey: Option<string>, id: Id, luck: Luck, w: World, cfg: Config): (Mux, bool) {
    if routeKey.None? || (Running(s, p) && BackendHealthy(s, p, w))
    then Send(s, p, id, None, true, luck, w, cfg)
    else HandleMigrated(s, p, routeKey.value, id, luck, w, cfg)
  }

  function HandleMigrated(s: Mux, p: string, routeKey: string, id: Id, luck: Luck, w: World, cfg: Config): (Mux, bool) {
    var s1 := if Running(s, p) then s else s.(pool := MarkFailure(s.pool, cfg.policy, p, "process", None, w));
    var (s2, lease) := Select(s1, Some(routeKey), true, luck, w, cfg);
    if lease.None? then (s2, false)
    else
      var q := lease.value.profile;
      Send(s2.(routes := BindRoute(s2.routes, routeKey, q)), q, id, Some(lease.value.id), true, luck, w, cfg)
  }

  predicate StartsWith(s: string, prefix: string) {
    prefix <= s
  }

  predicate PoolId(id: Id) {
    id.IdStr? && StartsWith(id.s, "pool:")
  }

  /** The client answers a request of a backend. */
  predicate IsServerAnswer(s: Mux, m: ClientMessage) {
    PoolId(m.id) && m.id.s in s.routes.serverRequests
  }

  predicate IsIgnored(s: Mux, m: ClientMessage) {
    PoolId(m.id) && !IsServerAnswer(s, m) && m.verb.NoVerb?
  }

  function HandleStart(s: Mux, id: Id, luck: Luck, w: World, cfg: Config): (Mux, bool) {
    var (s1, lease) := Select(s, None, false, luck, w, cfg);
    if lease.None? then (s1, false)
    else
      var s2 := s1.(routes := Remember(s1.routes, id, lease.value.profile));
      Send(s2, lease.value.profile, id, Some(lease.value.id), true, luck, w, cfg)
  }

  /** No control backend yet: any account will do. */
  function HandleUnrouted(s: Mux, id: Id, luck: Luck, w: World, cfg: Config): (Mux, bool) {
    var (s1, lease) := Select(s, None, false, luck, w, cfg);
    if lease.None? then (s1, false)
    else Send(s1, lease.value.profile, id, Some(lease.value.id), true, luck, w, cfg)
  }

  function HandlePlan(s: Mux, verb: string, plan: Plan, id: Id, luck: Luck, w: World, cfg: Config): (Mux, bool) {
    match plan
    case PlanLocal => (s, true)
    case PlanAggregate => HandleGlobal(s, verb, id, luck, w, cfg)
    case PlanDiscover => (Written(s, Reply(id, ErrorContent(NO_ROUTE))), true)
    case PlanError => (Written(s, Reply(id, ErrorContent(NO_ROUTE))), true)
    case PlanSelect => HandleStart(s, id, luck, w, cfg)
    case PlanBackend(p, routeKey) =>
      if p.Some? then HandleRouted(s, p.value, routeKey, id, luck, w, cfg)
      else HandleUnrouted(s, id, luck, w, cfg)
  }

  function HandleOther(s: Mux, verb: string, m: ClientMessage, luck: Luck, w: World, cfg: Config): (Mux, bool) {
    var (routes, plan) := PlanRequest(s.routes, verb, m.thread, m.id);
    HandlePlan(s.(routes := routes), verb, plan, m.id, luck, w, cfg)
  }

  /** `_handle_client_message`: false when it raised. */
  function HandleClient(s: Mux, m: ClientMessage, luck: Luck, w: World, cfg: Config): (Mux, bool) {
    if IsServerAnswer(s, m) then
      var (routes, request) := RouteResponse(s.routes, m.id.s);
      Send(s.(routes := routes), request.value.backend, request.value.original, None, false, luck, w, cfg)
    else if IsIgnored(s, m) then (s, true)
    else if !m.verb.Verb? then (s, false)
    else
      var verb := m.verb.name;
      if verb == "initialize" then HandleInitialize(s, m.id, luck, w, cfg)
      else if verb == "initialized" then (s, true)
      else if verb in GLOBAL_METHODS && verb != "thread/list" then HandleGlobal(s, verb, m.id, luck, w, cfg)
      else if verb == "thread/start" then HandleStart(s, m.id, luck, w, cfg)
      else HandleOther(s, verb, m, luck, w, cfg)
  }

  /** The client branch of `run`: an error while handling a request is reported under its id. */
  function ClientLine(s: Mux, m: ClientMessage, luck: Luck, w: World, cfg: Config): Mux {
    var (s1, ok) := HandleClient(s, m, luck, w, cfg);
    if ok || m.id == IdNull then s1 else Written(s1, Reply(m.id, ErrorContent(BACKEND_FAILED)))
  }

  // ---------------------------------------------------------------- backend messages

  function FailureKind(code: Option<int>): string {
    if code == Some(401) then "401" else if code == Some(403) then "403" else "backend"
  }

  /** An answer to a fanned-out request. */
  function HandleShare(s: Mux, key: Key, i: nat, r: Response): Mux {
    var (aggs, replies) := AnswerAggregate(s.aggs, i, r);
    s.(aggPending := Pop(s.aggPending, key), aggs := aggs, out := s.out + replies)
  }

  /** The answer is passed on, its lease released, and the account's health updated. */
  function Deliver(s: Mux, p: string, r: Response, lease: Option<nat>, w: World, cfg: Config): Mux {
    var s1 := Freed(Written(s, Reply(r.id, FromBackend(r))), lease);
    s1.(pool := if r.isError then MarkFailure(s1.pool, cfg.policy, p, FailureKind(r.code), None, w)
                else MarkSuccess(s1.pool, p, w))
  }

  function LeaseOf(pending: Option<Pending>): Option<nat> {
    if pending.Some? then pending.value.lease else None
  }

  /** An answer from a backend; false when the route table refuses it, which is after its request is forgotten. */
  function HandleResponse(s: Mux, p: string, r: Response, w: World, cfg: Config): (Mux, bool) {
    var key := MessageKey(p, r.id);
    if Has(s.aggPending, key) then (HandleShare(s, key, Get(s.aggPending, key).value, r), true)
    else
      var (routes, expected) := RecordResponse(s.routes, p, r.id, r.thread);
      var s1 := Untracked(s, p, r.id).(routes := routes);
      if expected then (Deliver(s1, p, r, LeaseOf(Get(s.pending, key)), w, cfg), true) else (s1, false)
  }

  /** The backend branch of `run`: a refused message retires its backend. */
  function BackendLine(s: Mux, p: string, m: BackendMessage, w: World, cfg: Config): Mux {
    if !Has(s.backends, p) then s
    else
      match m
      case Answered(r) =>
        var (s1, ok) := HandleResponse(s, p, r, w, cfg);
        if ok then s1 else Retire(s1, p, w, cfg)
      case Calls(id, body) =>
        var (routes, f) := ForwardRequest(s.routes, p, id);
        Written(s.(routes := routes), ServerCall(f, body))
      case Notifies(started, body) =>
        Written(s.(routes := RecordNotification(s.routes, p, started)), Notice(body))
  }

  // ---------------------------------------------------------------- runs

  datatype MuxEvent =
    | Client(m: ClientMessage, luck: Luck, w: World)
    | Backend(p: string, message: BackendMessage, w: World)
    | Lost(p: string, w: World)         // end of file, or an unreadable message
    | Exits(p: string)                  // the process ends; the server has not noticed
    | Foreign(e: PoolEvent)             // another process, or a refresh worker, changes the pool file

  function Step(s: Mux, e: MuxEvent, cfg: Config): Mux {
    match e
    case Client(m, luck, w) => ClientLine(s, m, luck, w, cfg)
    case Backend(p, m, w) => BackendLine(s, p, m, w, cfg)
    case Lost(p, w) => Retire(s, p, w, cfg)
    case Exits(p) => Died(s, p)
    case Foreign(pe) => s.(pool := Apply(cfg.policy, s.pool, pe))
  }

  /** A server that has just started on the given pool file. */
  function Start(pool: PoolState): Mux {
    Mux([], [], [], [], NO_ROUTES, None, pool, [])
  }

  function States(pool: PoolState, es: seq<MuxEvent>, cfg: Config): Mux {
    if es == [] then Start(pool) else Step(States(pool, es[..|es| - 1], cfg), es[|es| - 1], cfg)
  }
}
