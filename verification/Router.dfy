/**
 * The route table of app_server_router.py: which backend serves which thread, which request went where, and
 * the ids under which requests of the backends are shown to the client.
 */
module Router {
  import opened Wrappers
  import opened Text

  // ---------------------------------------------------------------- message ids

  /** JSON-RPC ids. A float is known by its Python text; a missing id reads as null. */
  datatype Id = IdInt(n: int) | IdStr(s: string) | IdFloat(repr: string) | IdBool(b: bool) | IdNull

  function TypeName(id: Id): (s: string)
    ensures ':' !in s
  {
    match id
    case IdInt(_) => "int"
    case IdStr(_) => "str"
    case IdFloat(_) => "float"
    case IdBool(_) => "bool"
    case IdNull => "NoneType"
  }

  /** Python's `str`. */
  function Str(id: Id): string {
    match id
    case IdInt(n) => IntText(n)
    case IdStr(s) => s
    case IdFloat(repr) => repr
    case IdBool(b) => if b then "True" else "False"
    case IdNull => "None"
  }

  function IdKey(id: Id): string {
    TypeName(id) + ":" + Str(id)
  }

  /** Type and text determine an id, so different ids never share a key. */
  lemma IdKeyInjective(a: Id, b: Id)
    requires IdKey(a) == IdKey(b)
    ensures a == b
  {
    SplitAtFirstColon(TypeName(a), Str(a), TypeName(b), Str(b));
    assert TypeName(a)[0] == TypeName(b)[0];
    match (a, b)
    case (IdInt(m), IdInt(n)) => IntTextInjective(m, n);
    case (IdBool(_), IdBool(_)) => assert Str(a)[0] == Str(b)[0];
    case _ =>
  }

  function ForwardedId(backend: string, id: Id): string {
    "pool:" + (backend + ":" + IdKey(id))
  }

  /** With colon-free backend names, a forwarded id determines the backend and the original id. */
  lemma ForwardedIdInjective(p: string, a: Id, q: string, b: Id)
    requires ':' !in p && ':' !in q && ForwardedId(p, a) == ForwardedId(q, b)
    ensures p == q && a == b
  {
    CancelPrefix("pool:", p + ":" + IdKey(a), q + ":" + IdKey(b));
    SplitAtFirstColon(p, IdKey(a), q, IdKey(b));
    IdKeyInjective(a, b);
  }

  /** A colon in a name breaks that: two backends, two ids, one forwarded id. */
  lemma ForwardedIdNeedsColonFreeNames()
    ensures ForwardedId("a:str", IdStr("x")) == ForwardedId("a", IdStr("str:x"))
  {
  }

  // ---------------------------------------------------------------- profile names

  predicate SafeChar(c: char) {
    'A' <= c <= 'Z' || 'a' <= c <= 'z' || '0' <= c <= '9' || c in "._@+-"
  }

  /**
   * Each run of unsafe characters becomes one underscore; `open` says that one has already been written for this run.
   */
  function Replaced(s: string, open: bool): (r: string)
    ensures forall c :: c in r ==> SafeChar(c)
  {
    if s == [] then []
    else if SafeChar(s[0]) then [s[0]] + Replaced(s[1..], false)
    else if open then Replaced(s[1..], true)
    else "_" + Replaced(s[1..], true)
  }

  const RESERVED_NAMES := {"", ".", "..", "tmp", "backup", "current"}

  /** `sanitize_profile_name`: the name profiles are stored under, or none for a refused one. */
  function SanitizeProfileName(name: string): (r: Option<string>)
    ensures r.Some? ==> (forall c :: c in r.value ==> SafeChar(c)) && r.value !in RESERVED_NAMES
  {
    var clean := Trim(Replaced(Trim(name, Blank), false), c => c == '_');
    if clean in RESERVED_NAMES then None else Some(clean)
  }

  lemma {:induction false} SafeTextIsKept(s: string)
    requires forall c :: c in s ==> SafeChar(c)
    ensures Replaced(s, false) == s
  {
    if s != [] {
      SafeTextIsKept(s[1..]);
    }
  }

  /** A sanitized name is its own sanitized form, so a name can be sanitized again at every entry point. */
  lemma SanitizeIsIdempotent(name: string)
    requires SanitizeProfileName(name).Some?
    ensures SanitizeProfileName(SanitizeProfileName(name).value) == SanitizeProfileName(name)
  {
    var clean := SanitizeProfileName(name).value;
    assert clean != [] && SafeChar(clean[0]) && SafeChar(clean[|clean| - 1]);
    assert forall c :: SafeChar(c) ==> !Blank(c);
    assert Trim(clean, Blank) == clean;
    SafeTextIsKept(clean);
    assert Trim(clean, c => c == '_') == clean;
  }

  predicate NoneSafe(s: string) {
    forall i :: 0 <= i < |s| ==> !SafeChar(s[i])
  }

  lemma {:induction false} UnsafeRunVanishes(u: string, b: string)
    requires NoneSafe(u) && (b != [] ==> SafeChar(b[0]))
    ensures Replaced(u + b, true) == Replaced(b, false)
  {
    if u == [] {
      assert u + b == b;
    } else {
      assert (u + b)[1..] == u[1..] + b;
      UnsafeRunVanishes(u[1..], b);
    }
  }

  /** Every run of unsafe characters, however long and wherever it stands, becomes one underscore. */
  lemma {:induction false} RunsBecomeUnderscores(a: string, u: string, b: string)
    requires (forall c :: c in a ==> SafeChar(c)) && u != [] && NoneSafe(u) && (b != [] ==> SafeChar(b[0]))
    ensures Replaced(a + u + b, false) == a + "_" + Replaced(b, false)
  {
    if a == [] {
      assert a + u + b == u + b && (u + b)[1..] == u[1..] + b;
      UnsafeRunVanishes(u[1..], b);
      assert a + "_" == "_";
    } else {
      assert a + u + b == [a[0]] + (a[1..] + u + b);
      RunsBecomeUnderscores(a[1..], u, b);
      assert [a[0]] + (a[1..] + "_" + Replaced(b, false)) == a + "_" + Replaced(b, false);
    }
  }

  lemma SafeNamesStay(name: string)
    requires name !in RESERVED_NAMES && (forall c :: c in name ==> SafeChar(c))
    requires name[0] != '_' && name[|name| - 1] != '_'
    ensures SanitizeProfileName(name) == Some(name)
  {
    assert SafeChar(name[0]) && SafeChar(name[|name| - 1]);
    assert forall c :: SafeChar(c) ==> !Blank(c);
    assert Trim(name, Blank) == name;
    SafeTextIsKept(name);
    assert Trim(name, c => c == '_') == name;
  }

  /** Which names are stored as they are, and so which names there are, see SanitizeIsIdempotent. */
  lemma NamesStoredAsTheyAre(name: string)
    ensures SanitizeProfileName(name) == Some(name) <==>
      && name !in ["", ".", "..", "tmp", "backup", "current"] && name[0] != '_' && name[|name| - 1] != '_'
      && forall c :: c in name ==>
           'a' <= c <= 'z' || 'A' <= c <= 'Z' || '0' <= c <= '9' || c in ['.', '_', '@', '+', '-']
  {
    if name !in RESERVED_NAMES && name[0] != '_' && name[|name| - 1] != '_' {
      if forall c :: c in name ==> SafeChar(c) {
        SafeNamesStay(name);
      }
    }
    if SanitizeProfileName(name) == Some(name) {
      var i, j := TrimIs(Replaced(Trim(name, Blank), false), c => c == '_');
    }
  }

  lemma SanitizedNamesAreColonFree(name: string)
    requires SanitizeProfileName(name).Some?
    ensures ':' !in SanitizeProfileName(name).value
  {
    assert !SafeChar(':');
  }

  // ---------------------------------------------------------------- the table

  const THREAD_ID_METHODS := {
    "thread/resume", "thread/read", "thread/metadata/update", "thread/goal/set", "thread/goal/get",
    "thread/goal/clear", "thread/compact/start", "thread/rollback", "thread/inject_items",
    "turn/start", "turn/steer", "turn/interrupt"}

  const GLOBAL_METHODS := {
    "initialize", "initialized", "account/read", "account/logout", "account/rateLimits/read", "model/list",
    "config/read", "configRequirements/read", "experimentalFeature/list", "permissionProfile/list", "thread/list"}

  type ThreadId = s: string | s != "" witness "t"

  datatype ServerRequest = ServerRequest(backend: string, original: Id)

  datatype Routes = Routes(
    control: Option<string>,
    routes: map<string, string>,
    pendingRequests: map<string, string>,
    serverRequests: map<string, ServerRequest>)

  const NO_ROUTES := Routes(None, map[], map[], map[])

  function ThreadRouteKey(thread: ThreadId): string {
    "thread:" + thread
  }

  function Remember(t: Routes, id: Id, backend: string): Routes {
    if id == IdNull then t else t.(pendingRequests := t.pendingRequests[IdKey(id) := backend])
  }

  function BindRoute(t: Routes, key: string, backend: string): Routes {
    t.(routes := t.routes[key := backend])
  }

  /** The first thread bound also fixes the control backend. */
  function BindThread(t: Routes, thread: ThreadId, backend: string): Routes {
    var bound := BindRoute(t, ThreadRouteKey(thread), backend);
    if t.control.None? then bound.(control := Some(backend)) else bound
  }

  datatype Plan =
    | PlanLocal
    | PlanSelect
    | PlanDiscover
    | PlanError
    | PlanAggregate
    | PlanBackend(backend: Option<string>, routeKey: Option<string>)

  predicate NamesThread(verb: string) {
    verb == "thread/fork" || verb in THREAD_ID_METHODS
  }

  function PlanRequest(t: Routes, verb: string, thread: Option<ThreadId>, id: Id): (Routes, Plan) {
    if verb == "initialize" || verb == "initialized" then (t, PlanLocal)
    else if verb == "thread/start" then (t, PlanSelect)
    else if NamesThread(verb) then
      if thread.None? then (t, PlanError)
      else
        var key := ThreadRouteKey(thread.value);
        if key !in t.routes then (t, PlanDiscover)
        else (Remember(t, id, t.routes[key]), PlanBackend(Some(t.routes[key]), Some(key)))
    else if verb == "thread/list" then (t, PlanAggregate)
    else (t, PlanBackend(t.control, None))
  }

  /** The backend's answer, forgotten as pending; false when another backend was expected to give it. */
  function RecordResponse(t: Routes, backend: string, id: Id, thread: Option<ThreadId>): (Routes, bool) {
    var key := IdKey(id);
    var rest := t.(pendingRequests := t.pendingRequests - {key});
    if key in t.pendingRequests && t.pendingRequests[key] != backend then (rest, false)
    else if thread.Some? then (BindThread(rest, thread.value, backend), true)
    else (rest, true)
  }

  function RecordNotification(t: Routes, backend: string, thread: Option<ThreadId>): Routes {
    if thread.Some? then BindThread(t, thread.value, backend) else t
  }

  function ForwardRequest(t: Routes, backend: string, id: Id): (Routes, string) {
    var f := ForwardedId(backend, id);
    (t.(serverRequests := t.serverRequests[f := ServerRequest(backend, id)]), f)
  }

  /** Where the client's answer goes, and under which id. */
  function RouteResponse(t: Routes, id: string): (Routes, Option<ServerRequest>) {
    if id !in t.serverRequests then (t, None)
    else (t.(serverRequests := t.serverRequests - {id}), Some(t.serverRequests[id]))
  }

  /** The table object, updated in place. */
  class AppServerRouteTable {
    var control: Option<string>
    var routes: map<string, string>
    var pendingRequests: map<string, string>
    var serverRequests: map<string, ServerRequest>

    constructor ()
      ensures State() == NO_ROUTES
    {
      control := None;
      routes := map[];
      pendingRequests := map[];
      serverRequests := map[];
    }

    function State(): Routes
      reads this
    {
      Routes(control, routes, pendingRequests, serverRequests)
    }

    method Bind(key: string, backend: string)
      modifies this
      ensures State() == BindRoute(old(State()), key, backend)
    {
      routes := routes[key := backend];
    }

    method BindThreadTo(thread: ThreadId, backend: string)
      modifies this
      ensures State() == BindThread(old(State()), thread, backend)
    {
      routes := routes[ThreadRouteKey(thread) := backend];
      if control.None? {
        control := Some(backend);
      }
    }

    method RememberRequest(id: Id, backend: string)
      modifies this
      ensures State() == Remember(old(State()), id, backend)
    {
      if id != IdNull {
        pendingRequests := pendingRequests[IdKey(id) := backend];
      }
    }

    method Plan(verb: string, thread: Option<ThreadId>, id: Id) returns (plan: Plan)
      modifies this
      ensures (State(), plan) == PlanRequest(old(State()), verb, thread, id)
    {
      if verb == "initialize" || verb == "initialized" {
        return PlanLocal;
      }
      if verb == "thread/start" {
        return PlanSelect;
      }
      if NamesThread(verb) {
        if thread.None? {
          return PlanError;
        }
        var key := ThreadRouteKey(thread.value);
        if key !in routes {
          return PlanDiscover;
        }
        var backend := routes[key];
        RememberRequest(id, backend);
        return PlanBackend(Some(backend), Some(key));
      }
      if verb == "thread/list" {
        return PlanAggregate;
      }
      return PlanBackend(control, None);
    }

    method Response(backend: string, id: Id, thread: Option<ThreadId>) returns (expected: bool)
      modifies this
      ensures (State(), expected) == RecordResponse(old(State()), backend, id, thread)
    {
      var key := IdKey(id);
      var other := key in pendingRequests && pendingRequests[key] != backend;
      pendingRequests := pendingRequests - {key};
      if other {
        return false;
      }
      if thread.Some? {
        BindThreadTo(thread.value, backend);
      }
      return true;
    }

    method Forward(backend: string, id: Id) returns (forwarded: string)
      modifies this
      ensures (State(), forwarded) == ForwardRequest(old(State()), backend, id)
    {
      forwarded := ForwardedId(backend, id);
      serverRequests := serverRequests[forwarded := ServerRequest(backend, id)];
    }

    method TakeServerRequest(id: string) returns (request: Option<ServerRequest>)
      modifies this
      ensures (State(), request) == RouteResponse(old(State()), id)
    {
      if id !in serverRequests {
        return None;
      }
      request := Some(serverRequests[id]);
      serverRequests := serverRequests - {id};
    }
  }

  // ---------------------------------------------------------------- server requests over runs

  datatype ServerEvent = Asks(backend: string, id: Id) | ClientAnswers(forwarded: string) | OtherChange(t: Routes)

  predicate Allowed(t: Routes, e: ServerEvent) {
    match e
    case Asks(p, _) => ':' !in p
    case ClientAnswers(_) => true
    case OtherChange(other) => other.serverRequests == t.serverRequests
  }

  function ServerStep(t: Routes, e: ServerEvent): Routes {
    match e
    case Asks(p, id) => ForwardRequest(t, p, id).0
    case ClientAnswers(f) => RouteResponse(t, f).0
    case OtherChange(other) => other
  }

  ghost predicate ServerRun(ts: seq<Routes>, es: seq<ServerEvent>) {
    && |ts| == |es| + 1 && ts[0].serverRequests == map[]
    && forall i :: 0 <= i < |es| ==> Allowed(ts[i], es[i]) && ts[i + 1] == ServerStep(ts[i], es[i])
  }

  /** The client has not answered this forwarded id between two steps. */
  predicate Unanswered(es: seq<ServerEvent>, i: nat, n: nat, f: string)
    requires n <= |es|
  {
    forall j :: i < j < n ==> es[j] != ClientAnswers(f)
  }

  /** The request with this forwarded id is open: asked at some step and not answered since. */
  ghost predicate Open(es: seq<ServerEvent>, n: nat, p: string, id: Id)
    requires n <= |es|
  {
    exists i: nat :: i < n && es[i] == Asks(p, id) && Unanswered(es, i, n, ForwardedId(p, id))
  }

  lemma {:induction false} TableIsKeyedByForwardedId(ts: seq<Routes>, es: seq<ServerEvent>, n: nat)
    requires ServerRun(ts, es) && n <= |es|
    ensures forall f :: f in ts[n].serverRequests ==>
      var r := ts[n].serverRequests[f]; ':' !in r.backend && f == ForwardedId(r.backend, r.original)
  {
    if n > 0 {
      TableIsKeyedByForwardedId(ts, es, n - 1);
      assert Allowed(ts[n - 1], es[n - 1]) && ts[n] == ServerStep(ts[n - 1], es[n - 1]);
    }
  }

  lemma UnansweredStep(es: seq<ServerEvent>, i: nat, n: nat, f: string)
    requires i < n <= |es|
    ensures Unanswered(es, i, n, f) <==>
      i == n - 1 || (Unanswered(es, i, n - 1, f) && es[n - 1] != ClientAnswers(f))
  {
  }

  lemma OpenStep(es: seq<ServerEvent>, n: nat, p: string, id: Id)
    requires 0 < n <= |es|
    ensures Open(es, n, p, id) <==>
      es[n - 1] == Asks(p, id) || (Open(es, n - 1, p, id) && es[n - 1] != ClientAnswers(ForwardedId(p, id)))
  {
    forall i: nat | i < n { UnansweredStep(es, i, n, ForwardedId(p, id)); }
  }

  lemma ServerStepHolds(t: Routes, e: ServerEvent, p: string, id: Id)
    requires Allowed(t, e) && ':' !in p
    ensures var f := ForwardedId(p, id);
      f in ServerStep(t, e).serverRequests <==>
        e == Asks(p, id) || (f in t.serverRequests && e != ClientAnswers(f))
  {
    if e.Asks? && ForwardedId(e.backend, e.id) == ForwardedId(p, id) {
      ForwardedIdInjective(p, id, e.backend, e.id);
    }
  }

  lemma {:induction false} TableHoldsOpenRequests(ts: seq<Routes>, es: seq<ServerEvent>, n: nat, p: string, id: Id)
    requires ServerRun(ts, es) && n <= |es| && ':' !in p
    ensures ForwardedId(p, id) in ts[n].serverRequests <==> Open(es, n, p, id)
  {
    if n > 0 {
      TableHoldsOpenRequests(ts, es, n - 1, p, id);
      OpenStep(es, n, p, id);
      assert Allowed(ts[n - 1], es[n - 1]) && ts[n] == ServerStep(ts[n - 1], es[n - 1]);
      ServerStepHolds(ts[n - 1], es[n - 1], p, id);
    }
  }

  /**
   * In any interleaving of backend requests and client answers, an answer is delivered exactly when the request
   * is open, and then to the backend that asked, with its original id and type.
   */
  lemma AnswersReachTheirAsker(ts: seq<Routes>, es: seq<ServerEvent>, n: nat, p: string, id: Id)
    requires ServerRun(ts, es) && n <= |es| && ':' !in p
    ensures RouteResponse(ts[n], ForwardedId(p, id)).1 ==
      if Open(es, n, p, id) then Some(ServerRequest(p, id)) else None
  {
    TableHoldsOpenRequests(ts, es, n, p, id);
    TableIsKeyedByForwardedId(ts, es, n);
    var f := ForwardedId(p, id);
    if f in ts[n].serverRequests {
      var r := ts[n].serverRequests[f];
      ForwardedIdInjective(p, id, r.backend, r.original);
    }
  }
}
