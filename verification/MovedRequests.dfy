/**
 * Requests of a thread that is moved to another backend: the server forgets them, in general and in a concrete run.
 */
module MovedRequests {
  import opened Wrappers
  import opened Dicts
  import opened Pool
  import opened Router
  import opened Multiplexer
  import opened ReplyLaw
  import opened MuxStructure
  import opened MuxRouting
  import opened MuxDepartures

  // ---------------------------------------------------------------- a request that moves

  lemma ThreadVerbs(verb: string)
    requires NamesThread(verb)
    ensures verb != "initialize" && verb != "initialized" && verb != "thread/start" && verb !in GLOBAL_METHODS
  {
  }

  lemma MovedByOther(s: Mux, m: ClientMessage, luck: Luck, w: World, cfg: Config)
    requires IsRequest(s, m) && Migrates(s, m, luck, w, cfg)
    ensures HandleClient(s, m, luck, w, cfg) == HandleOther(s, m.verb.name, m, luck, w, cfg)
  {
    ThreadVerbs(m.verb.name);
  }

  lemma MovedByRouted(s: Mux, m: ClientMessage, luck: Luck, w: World, cfg: Config)
    requires Migrates(s, m, luck, w, cfg)
    ensures var (routes, plan) := PlanRequest(s.routes, m.verb.name, m.thread, m.id);
      HandleOther(s, m.verb.name, m, luck, w, cfg)
        == HandleMigrated(s.(routes := routes), plan.backend.value, plan.routeKey.value, m.id, luck, w, cfg)
  {
    var (routes, plan) := PlanRequest(s.routes, m.verb.name, m.thread, m.id);
    MovedByPlan(s.(routes := routes), m.verb.name, plan, m.id, luck, w, cfg);
  }

  lemma MovedByPlan(s: Mux, verb: string, plan: Plan, id: Id, luck: Luck, w: World, cfg: Config)
    requires plan.PlanBackend? && plan.backend.Some? && plan.routeKey.Some?
    requires !(Running(s, plan.backend.value) && BackendHealthy(s, plan.backend.value, w))
    ensures HandlePlan(s, verb, plan, id, luck, w, cfg)
      == HandleMigrated(s, plan.backend.value, plan.routeKey.value, id, luck, w, cfg)
  {
  }

  /** The backend a thread's request moves to. */
  lemma MovedMessage(s: Mux, m: ClientMessage, luck: Luck, w: World, cfg: Config) returns (q: string)
    requires Sound(s, Unchecked) && NewId(s, m.id) && m.id != IdNull && IsRequest(s, m) && Migrates(s, m, luck, w, cfg)
    ensures var t := ClientLine(s, m, luck, w, cfg);
      Has(t.backends, q) && Has(t.pending, MessageKey(q, m.id)) && (!Has(t.aggPending,
        MessageKey(q, m.id)) ==> Misrouted(t, q, m.id))
  {
    var (routes, plan) := PlanRequest(s.routes, m.verb.name, m.thread, m.id);
    MovedByOther(s, m, luck, w, cfg);
    MovedByRouted(s, m, luck, w, cfg);
    ThreadVerbs(m.verb.name);
    var s1 := s.(routes := routes);
    assert Fresh(s1, m.id);
    q := MovedIsMisrouted(s1, plan.backend.value, plan.routeKey.value, m.id, luck, w, cfg);
  }

  lemma SwallowedAnswer(t: Mux, q: string, r: Response, w: World, cfg: Config)
    requires KeyedById(t) && Has(t.backends, q) && Has(t.pending, MessageKey(q, r.id)) && Misrouted(t, q, r.id)
    ensures Total(BackendLine(t, q, Answered(r), w, cfg), r.id) == Total(t, r.id) - 1
  {
    ResponseCounts(t, q, r, w, cfg, r.id);
  }

  /**
   * Every request that moves is lost: the answer of the backend it moved to leaves it neither answered nor in flight.
   */
  lemma MovedRequestIsLost(s: Mux, m: ClientMessage, luck: Luck, w: World, cfg: Config, r: Response, w': World)
    returns (q: string)
    requires Sound(s, Unchecked) && NewId(s, m.id) && m.id != IdNull && IsRequest(s, m) && Migrates(s, m, luck, w, cfg)
    requires Total(s, m.id) == 0 && r.id == m.id
    ensures var t := ClientLine(s, m, luck, w, cfg);
      && Has(t.backends, q) && Total(t, m.id) == 1
      && (!Has(t.aggPending, MessageKey(q, m.id)) ==> Total(BackendLine(t, q, Answered(r), w', cfg), m.id) == 0)
  {
    var t := ClientLine(s, m, luck, w, cfg);
    MovedCounts(s, m, luck, w, cfg);
    q := MovedMessage(s, m, luck, w, cfg);
    if !Has(t.aggPending, MessageKey(q, m.id)) {
      SwallowedAnswer(t, q, r, w', cfg);
    }
  }

  lemma MovedCounts(s: Mux, m: ClientMessage, luck: Luck, w: World, cfg: Config)
    requires Sound(s, Unchecked) && NewId(s, m.id) && m.id != IdNull && IsRequest(s, m) && Migrates(s, m, luck, w, cfg)
    ensures var t := ClientLine(s, m, luck, w, cfg); KeyedById(t) && Total(t, m.id) == Total(s, m.id) + 1
  {
    ClientWf(s, m, luck, w, cfg, Unchecked);
    ThreadVerbs(m.verb.name);
    RequestCounts(s, m, luck, w, cfg, m.id);
  }

  // ---------------------------------------------------------------- a run with a request that moves

  /** The backend p is in control and has a thread, but its process has ended. */
  predicate Orphaned(s: Mux, p: string, thread: ThreadId) {
    && s.backends == [(p, false)] && s.pending == [] && s.aggPending == [] && s.aggs == []
    && s.routes.routes == map[ThreadRouteKey(thread) := p]
    && s.pool.health == map[]
  }

  lemma OrphanedBy(s: Mux, p: string, thread: ThreadId)
    requires Greeted(s, p)
    ensures Orphaned(Died(BackendLine(s, p, Notifies(Some(thread), ""), NOON, CFG), p), p, thread)
  {
    assert [(p, true)][..0] == [];
    assert Replace([(p, true)], p, false) == [(p, false)];
    assert Has(s.backends, p);
    var t := BackendLine(s, p, Notifies(Some(thread), ""), NOON, CFG);
    var routes := RecordNotification(s.routes, p, Some(thread));
    assert t == Written(s.(routes := routes), Notice(""));
    assert routes.routes == map[ThreadRouteKey(thread) := p];
    assert Died(t, p) == t.(backends := [(p, false)]);
  }

  function Resume(thread: ThreadId): ClientMessage {
    ClientMessage(IdInt(2), Verb("turn/start"), Some(thread), "")
  }

  lemma ReachNew(s: Mux, q: string, id: Id, lease: Option<nat>)
    requires Running(s, q)
    ensures var (t, ok) := Send(s, q, id, lease, true, Fine(q), NOON, CFG); ok && t.aggPending == s.aggPending
  {
  }

  /** The thread's next request moves to q. */
  lemma OrphanMoves(s: Mux, p: string, q: string, thread: ThreadId)
    requires Orphaned(s, p, thread) && p != q
    ensures Moves(s, p, ThreadRouteKey(thread), IdInt(2), Fine(q), NOON, CFG)
    ensures HandleMigrated(s, p, ThreadRouteKey(thread), IdInt(2), Fine(q), NOON, CFG).0.aggPending == []
  {
    var key := ThreadRouteKey(thread);
    assert !Running(s, p);
    var s1 := s.(pool := MarkFailure(s.pool, CFG.policy, p, "process", None, NOON));
    TakeOnly(s1, q, Some(key), true);
    var (s2, lease) := Take(s1, Some(key), true, Fine(q), NOON, CFG);
    assert !Has(s2.backends, q);
    AdmitNew(s2, lease.value);
    var s3 := s2.(backends := s2.backends + [(q, true)]);
    assert Select(s1, Some(key), true, Fine(q), NOON, CFG) == (s3, lease);
    assert (s2.backends + [(q, true)])[..1] == s2.backends;
    ReachNew(s3.(routes := BindRoute(s3.routes, key, q)), q, IdInt(2), Some(lease.value.id));
  }

  lemma ResumePlan(s: Mux, p: string, thread: ThreadId)
    requires Orphaned(s, p, thread)
    ensures var key := ThreadRouteKey(thread);
      PlanRequest(s.routes, "turn/start", Some(thread), IdInt(2))
        == (Remember(s.routes, IdInt(2), p), PlanBackend(Some(p), Some(key)))
    ensures NamesThread("turn/start")
  {
    ThreadVerbs("turn/start");
  }

  lemma ResumeMigrates(s: Mux, p: string, q: string, thread: ThreadId)
    requires Orphaned(s, p, thread) && p != q
    ensures Migrates(s, Resume(thread), Fine(q), NOON, CFG) && IsRequest(s, Resume(thread))
  {
    ResumePlan(s, p, thread);
    OrphanMoves(s.(routes := Remember(s.routes, IdInt(2), p)), p, q, thread);
  }

  lemma ResumeSharesNothing(s: Mux, p: string, q: string, thread: ThreadId)
    requires Orphaned(s, p, thread) && p != q
    ensures ClientLine(s, Resume(thread), Fine(q), NOON, CFG).aggPending == []
  {
    ResumeMigrates(s, p, q, thread);
    MovedByOther(s, Resume(thread), Fine(q), NOON, CFG);
    MovedByRouted(s, Resume(thread), Fine(q), NOON, CFG);
    ResumePlan(s, p, thread);
    OrphanMoves(s.(routes := Remember(s.routes, IdInt(2), p)), p, q, thread);
  }

  /** p greets, announces a thread, and ends. */
  function OrphaningRun(p: string, thread: ThreadId): seq<MuxEvent> {
    [Client(Hello(), Fine(p), NOON), Backend(p, Notifies(Some(thread), ""), NOON), Exits(p)]
  }

  lemma RunSnoc(es: seq<MuxEvent>, e: MuxEvent)
    ensures States(EMPTY_POOL, es + [e], CFG) == Step(States(EMPTY_POOL, es, CFG), e, CFG)
  {
    assert (es + [e])[..|es|] == es;
  }

  lemma AfterOrphaning(p: string, thread: ThreadId)
    ensures var s := States(EMPTY_POOL, OrphaningRun(p, thread), CFG);
      && Orphaned(s, p, thread) && Sound(s, Unchecked)
      && s.routes.pendingRequests == map[] && Total(s, IdInt(2)) == 0
  {
    AfterHello(p);
    var s := ClientLine(Start(EMPTY_POOL), Hello(), Fine(p), NOON, CFG);
    OrphaningRunIs(p, thread, s);
    OrphanedBy(s, p, thread);
    NoneCounted(s, p, thread);
    MuxRuns.ControlLeaseNamesControlBackend(EMPTY_POOL, OrphaningRun(p, thread), CFG);
  }

  lemma OrphaningRunIs(p: string, thread: ThreadId, s: Mux)
    requires s == ClientLine(Start(EMPTY_POOL), Hello(), Fine(p), NOON, CFG)
    ensures States(EMPTY_POOL, OrphaningRun(p, thread), CFG)
      == Died(BackendLine(s, p, Notifies(Some(thread), ""), NOON, CFG), p)
  {
    ThreeSteps(Client(Hello(), Fine(p), NOON), Backend(p, Notifies(Some(thread), ""), NOON), Exits(p));
  }

  lemma NoneCounted(s: Mux, p: string, thread: ThreadId)
    requires Greeted(s, p) && s.out == [Reply(IdInt(1), InitialResult(p))]
    ensures var t := Died(BackendLine(s, p, Notifies(Some(thread), ""), NOON, CFG), p);
      Total(t, IdInt(2)) == 0 && t.out != [] && t.routes.pendingRequests == map[]
  {
    var t := BackendLine(s, p, Notifies(Some(thread), ""), NOON, CFG);
    RepliesOne(s.out, Notice(""), IdInt(2));
    assert s.out[..0] == [];
    assert t.out == s.out + [Notice("")];
  }

  /** A run in which a thread's request is moved, answered by the backend it was moved to, and never replied to. */
  lemma MovedRequestRun(p: string, q: string, thread: ThreadId, says: R.Answer, body: string)
    returns (answer: MuxEvent)
    requires p != q
    ensures answer.Backend? && answer.message == Answered(Response(IdInt(2), false, None, None, says, body))
    ensures var asked := OrphaningRun(p, thread) + [Client(Resume(thread), Fine(q), NOON)];
      && Has(States(EMPTY_POOL, asked, CFG).pending, MessageKey(answer.p, IdInt(2)))
      && var s := States(EMPTY_POOL, asked + [answer], CFG); Replies(s.out, IdInt(2)) == 0 && InFlight(s, IdInt(2)) == 0
  {
    var s := States(EMPTY_POOL, OrphaningRun(p, thread), CFG);
    AfterOrphaning(p, thread);
    var r := Response(IdInt(2), false, None, None, says, body);
    ResumeMigrates(s, p, q, thread);
    ResumeSharesNothing(s, p, q, thread);
    var b := MovedMessage(s, Resume(thread), Fine(q), NOON, CFG);
    MovedCounts(s, Resume(thread), Fine(q), NOON, CFG);
    var asked, t := Client(Resume(thread), Fine(q), NOON), ClientLine(s, Resume(thread), Fine(q), NOON, CFG);
    SwallowedAnswer(t, b, r, NOON, CFG);
    answer := Backend(b, Answered(r), NOON);
    RunSnoc(OrphaningRun(p, thread), asked);
    RunSnoc(OrphaningRun(p, thread) + [asked], answer);
  }
}
