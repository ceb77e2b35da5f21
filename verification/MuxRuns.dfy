/** The multiplexer over whole runs, in every interleaving of clients, backends, failures and other processes. */
module MuxRuns {
  // Each request is answered exactly once or in flight exactly once, and the leases of the server in the pool are
  // exactly those in use.

  import opened Wrappers
  import opened Dicts
  import opened Pool
  import opened Router
  import opened Multiplexer
  import opened ReplyLaw
  import opened LeaseLaw
  import opened MuxStructure
  import opened MuxRouting

  /** The ids of the requests so far, and the ids under which the client answered requests of backends. */
  datatype Log = Log(asked: seq<Id>, answered: set<Id>)

  function Logged(s: Mux, log: Log, e: MuxEvent): Log {
    if !e.Client? then log
    else if IsServerAnswer(s, e.m) then log.(answered := log.answered + {e.m.id})
    else if IsRequest(s, e.m) && e.m.id != IdNull then log.(asked := log.asked + [e.m.id])
    else log
  }

  function History(pool: PoolState, es: seq<MuxEvent>, cfg: Config): Log {
    if es == [] then Log([], {})
    else
      var front := es[..|es| - 1];
      Logged(States(pool, front, cfg), History(pool, front, cfg), es[|es| - 1])
  }

  /** The id of a request reads like no id the client has used before. */
  predicate FreshRequest(log: Log, id: Id) {
    && id != IdNull
    && (forall y :: y in log.asked ==> Str(y) != Str(id))
    && (forall y :: y in log.answered ==> Str(y) != Str(id))
  }

  /**
   * What clients and backends owe the server: ids that are not used again, only `initialized` without one, and
   * answers to what was asked.
   */
  predicate Lawful(s: Mux, log: Log, e: MuxEvent) {
    match e
    case Client(m, luck, w) =>
      if !IsRequest(s, m) then m.id !in log.asked
      else (IsInitialized(m) && m.id == IdNull) || FreshRequest(log, m.id)
    case Backend(p, m, w) => m.Answered? && Has(s.backends, p) ==> Solicited(s, p, m.response.id)
    case _ => true
  }

  predicate LawfulRun(pool: PoolState, es: seq<MuxEvent>, cfg: Config) {
    es == [] ||
    (var front := es[..|es| - 1];
     LawfulRun(pool, front, cfg) && Lawful(States(pool, front, cfg), History(pool, front, cfg), es[|es| - 1]))
  }

  /** Where the server slips: a fan-out in which a write fails, an `initialized` with an id, a misrouted answer. */
  predicate Slips(s: Mux, e: MuxEvent, cfg: Config) {
    match e
    case Client(m, luck, w) =>
      IsRequest(s, m) && m.id != IdNull && (ListBreaks(s, m, luck, w, cfg) || IsInitialized(m))
    case Backend(p, m, w) => m.Answered? && Has(s.backends, p) && Misrouted(s, p, m.response.id)
    case _ => false
  }

  predicate NeverSlips(pool: PoolState, es: seq<MuxEvent>, cfg: Config) {
    es == [] ||
    (NeverSlips(pool, es[..|es| - 1], cfg) && !Slips(States(pool, es[..|es| - 1], cfg), es[|es| - 1], cfg))
  }

  predicate TextsDistinct(ids: seq<Id>) {
    forall i, j :: 0 <= i < j < |ids| ==> Str(ids[i]) != Str(ids[j])
  }

  /**
   * Every request is answered exactly once and not in flight, or not answered and in flight exactly once; no other id
   * is answered or in flight. (Ids under which the client answered a backend may get error reports, and no more.)
   */
  ghost predicate AnsweredOnce(s: Mux, log: Log) {
    && (forall y :: y !in log.answered ==> Replies(s.out, y) + InFlight(s, y) == if y in log.asked then 1 else 0)
    && (forall y :: y in log.answered ==> InFlight(s, y) == 0)
  }

  ghost predicate AlwaysAnsweredOnce(pool: PoolState, es: seq<MuxEvent>, cfg: Config) {
    AnsweredOnce(States(pool, es, cfg), History(pool, es, cfg))
    && (es == [] || AlwaysAnsweredOnce(pool, es[..|es| - 1], cfg))
  }

  ghost predicate Inv(s: Mux, log: Log) {
    && Sound(s, Exact)
    && TextsDistinct(log.asked)
    && IdNull !in log.asked
    && (forall y :: y in log.asked ==> y !in log.answered)
    && AnsweredOnce(s, log)
  }

  lemma {:induction false} PendingCounts(pending: Dict<Key, Pending>, e: (Key, Pending))
    requires e in pending
    ensures PendingFor(pending, e.1.client) > 0
  {
    if pending[|pending| - 1] != e {
      PendingCounts(pending[..|pending| - 1], e);
    }
  }

  /** An id that was never used is nowhere: neither answered nor in flight. */
  ghost predicate NeverUsed(s: Mux, log: Log) {
    forall y :: y !in log.asked && y !in log.answered ==> Total(s, y) == 0
  }

  /** So a new id is neither pending nor in a fan-out, and reads like none that is. */
  lemma FreshIsNew(s: Mux, log: Log, id: Id)
    requires KeyedById(s) && NeverUsed(s, log) && FreshRequest(log, id)
    ensures Fresh(s, id) && TextUnused(s, id)
  {
    forall y | Str(y) == Str(id) ensures Total(s, y) == 0 {
      assert y !in log.asked && y !in log.answered;
    }
    forall e | e in s.pending ensures e.0.1 != IdKey(id) {
      PendingCounts(s.pending, e);
      if e.0.1 == IdKey(id) {
        IdKeyInjective(e.1.client, id);
      }
    }
  }

  /** What is not taken back: with the same total, more replies leave less in flight. */
  lemma LessInFlight(s: Mux, t: Mux, y: Id)
    requires s.out <= t.out && Total(t, y) == Total(s, y)
    ensures InFlight(t, y) <= InFlight(s, y)
  {
    RepliesConcat(s.out, t.out[|s.out|..], y);
    assert s.out + t.out[|s.out|..] == t.out;
  }

  lemma SoundSince(s: Mux, c: Counting)
    requires Sound(s, c)
    ensures Sound(s, Since(s))
  {
  }

  // ---------------------------------------------------------------- one step

  /** A request with a new id counts once for its id, unless it slips. */
  lemma RequestKeepsInv(s: Mux, log: Log, m: ClientMessage, luck: Luck, w: World, cfg: Config)
    requires Inv(s, log) && IsRequest(s, m) && FreshRequest(log, m.id)
    ensures var t, log' := ClientLine(s, m, luck, w, cfg), log.(asked := log.asked + [m.id]);
      if ListBreaks(s, m, luck, w, cfg) || IsInitialized(m) then !AnsweredOnce(t, log') else Inv(t, log')
  {
    FreshIsNew(s, log, m.id);
    if ListBreaks(s, m, luck, w, cfg) || IsInitialized(m) {
      RequestCounts(s, m, luck, w, cfg, m.id);
      CountedWrongly(s, ClientLine(s, m, luck, w, cfg), log, m.id);
    } else {
      ClientWf(s, m, luck, w, cfg, Exact);
      RequestSettles(s, log, m, luck, w, cfg);
      InvWithRequest(s, ClientLine(s, m, luck, w, cfg), log, m.id);
    }
  }

  lemma CountedWrongly(s: Mux, t: Mux, log: Log, id: Id)
    requires Inv(s, log) && FreshRequest(log, id) && Total(t, id) != Total(s, id) + 1
    ensures !AnsweredOnce(t, log.(asked := log.asked + [id]))
  {
    assert id !in log.asked && id !in log.answered;
    assert Total(s, id) == 0 && id in log.asked + [id];
  }

  lemma InvWithRequest(s: Mux, t: Mux, log: Log, id: Id)
    requires Inv(s, log) && FreshRequest(log, id)
    requires Sound(t, Exact) && AnsweredOnce(t, log.(asked := log.asked + [id]))
    ensures Inv(t, log.(asked := log.asked + [id]))
  {
  }

  lemma RequestSettles(s: Mux, log: Log, m: ClientMessage, luck: Luck, w: World, cfg: Config)
    requires Inv(s, log) && IsRequest(s, m) && FreshRequest(log, m.id)
    requires !ListBreaks(s, m, luck, w, cfg) && !IsInitialized(m)
    ensures AnsweredOnce(ClientLine(s, m, luck, w, cfg), log.(asked := log.asked + [m.id]))
  {
    var t, log' := ClientLine(s, m, luck, w, cfg), log.(asked := log.asked + [m.id]);
    FreshIsNew(s, log, m.id);
    SoundSince(s, Exact);
    ClientWf(s, m, luck, w, cfg, Since(s));
    forall y | y !in log.answered ensures Total(t, y) == if y in log'.asked then 1 else 0 {
      RequestCounts(s, m, luck, w, cfg, y);
    }
    forall y | y in log.answered ensures InFlight(t, y) == 0 {
      RequestCounts(s, m, luck, w, cfg, y);
      LessInFlight(s, t, y);
    }
  }

  /** An answer to a backend, or an ignored message, leaves nothing of its own in flight. */
  lemma AnswerSettles(s: Mux, log: Log, m: ClientMessage, luck: Luck, w: World, cfg: Config, y: Id)
    requires Inv(s, log) && !IsRequest(s, m) && m.id !in log.asked
    ensures var t, log' := ClientLine(s, m, luck, w, cfg), Logged(s, log, Client(m, luck, w));
      && (y !in log'.answered ==> Total(t, y) == if y in log'.asked then 1 else 0)
      && (y in log'.answered ==> InFlight(t, y) == 0)
  {
    var t0 := HandleClient(s, m, luck, w, cfg).0;
    SoundSince(s, Exact);
    AnswerHandled(s, m, luck, w, cfg, y);
    LessInFlight(s, t0, y);
    WrittenAdds(t0, m.id, ErrorContent(BACKEND_FAILED), y);
  }

  lemma AnswerHandled(s: Mux, m: ClientMessage, luck: Luck, w: World, cfg: Config, y: Id)
    requires !IsRequest(s, m) && Sound(s, Since(s))
    ensures var t := HandleClient(s, m, luck, w, cfg).0; Total(t, y) == Total(s, y) && s.out <= t.out
  {
    AnswerCountsNothing(s, m, luck, w, cfg, y);
    if IsServerAnswer(s, m) {
      var (routes, request) := RouteResponse(s.routes, m.id.s);
      var s1 := s.(routes := routes);
      WfLooksAt(s, s1, Since(s));
      SendWf(s1, request.value.backend, request.value.original, None, false, luck, w, cfg, Since(s));
    }
  }

  lemma AnswerKeepsInv(s: Mux, log: Log, m: ClientMessage, luck: Luck, w: World, cfg: Config)
    requires Inv(s, log) && !IsRequest(s, m) && m.id !in log.asked
    ensures Inv(ClientLine(s, m, luck, w, cfg), Logged(s, log, Client(m, luck, w)))
  {
    ClientWf(s, m, luck, w, cfg, Exact);
    forall y { AnswerSettles(s, log, m, luck, w, cfg, y); }
  }

  /** A step that changes no total and takes nothing back. */
  lemma QuietKeepsInv(s: Mux, t: Mux, log: Log)
    requires Inv(s, log) && Sound(t, Exact) && Sound(t, Since(s))
    requires forall y :: Total(t, y) == Total(s, y)
    ensures Inv(t, log)
  {
    forall y ensures Total(t, y) == Total(s, y) && InFlight(t, y) <= InFlight(s, y) {
      LessInFlight(s, t, y);
    }
  }

  lemma SolicitedIsInFlight(s: Mux, log: Log, p: string, id: Id)
    requires Inv(s, log) && Solicited(s, p, id) && Misrouted(s, p, id)
    ensures Total(s, id) == 1 && id !in log.answered && id in log.asked
  {
    var key := MessageKey(p, id);
    var i :| 0 <= i < |s.pending| && s.pending[i] == (key, Get(s.pending, key).value);
    assert s.pending[i] in s.pending;
    PendingCounts(s.pending, s.pending[i]);
    IdKeyInjective(s.pending[i].1.client, id);
  }

  lemma BackendKeepsInv(s: Mux, log: Log, p: string, m: BackendMessage, w: World, cfg: Config)
    requires Inv(s, log) && Lawful(s, log, Backend(p, m, w))
    ensures var t := BackendLine(s, p, m, w, cfg);
      if Slips(s, Backend(p, m, w), cfg) then !AnsweredOnce(t, log) else Inv(t, log)
  {
    var t := BackendLine(s, p, m, w, cfg);
    if Slips(s, Backend(p, m, w), cfg) {
      SolicitedIsInFlight(s, log, p, m.response.id);
      ResponseCounts(s, p, m.response, w, cfg, m.response.id);
    } else {
      SoundSince(s, Exact);
      BackendWf(s, p, m, w, cfg, Exact);
      BackendWf(s, p, m, w, cfg, Since(s));
      forall y { BackendCountsNothing(s, p, m, w, cfg, y); }
      QuietKeepsInv(s, t, log);
    }
  }

  lemma BackendCountsNothing(s: Mux, p: string, m: BackendMessage, w: World, cfg: Config, y: Id)
    requires KeyedById(s)
    requires m.Answered? && Has(s.backends, p) ==> Solicited(s, p, m.response.id) && !Misrouted(s, p, m.response.id)
    ensures Total(BackendLine(s, p, m, w, cfg), y) == Total(s, y)
  {
    if Has(s.backends, p) {
      match m
      case Answered(r) => ResponseCounts(s, p, r, w, cfg, y);
      case Calls(id, body) =>
        var (routes, f) := ForwardRequest(s.routes, p, id);
        RepliesOne(s.out, ServerCall(f, body), y);
      case Notifies(started, body) => RepliesOne(s.out, Notice(body), y);
    }
  }

  lemma LostKeepsInv(s: Mux, log: Log, p: string, w: World, cfg: Config)
    requires Inv(s, log)
    ensures Inv(Retire(s, p, w, cfg), log)
  {
    SoundSince(s, Exact);
    RetireWf(s, p, w, cfg, Exact);
    RetireWf(s, p, w, cfg, Since(s));
    forall y { RetireKeepsTotal(s, p, w, cfg, y); }
    QuietKeepsInv(s, Retire(s, p, w, cfg), log);
  }

  /** A process that ends and a change of the pool touch nothing the invariant speaks of. */
  lemma ElsewhereKeepsInv(s: Mux, log: Log, e: MuxEvent, cfg: Config)
    requires Inv(s, log) && (e.Exits? || e.Foreign?)
    ensures Inv(Step(s, e, cfg), log)
  {
    var t := Step(s, e, cfg);
    if e.Exits? {
      RegisterWf(s, e.p, false, Exact);
    } else {
      WfLooksAt(s, t, Exact);
    }
    forall y ensures Total(t, y) == Total(s, y) && InFlight(t, y) == InFlight(s, y) {}
  }

  /** A lawful step keeps every request answered once exactly when it does not slip. */
  lemma StepKeepsInv(s: Mux, log: Log, e: MuxEvent, cfg: Config)
    requires Inv(s, log) && Lawful(s, log, e)
    ensures var t, log' := Step(s, e, cfg), Logged(s, log, e);
      if Slips(s, e, cfg) then !AnsweredOnce(t, log') else Inv(t, log')
  {
    match e
    case Client(m, luck, w) =>
      if !IsRequest(s, m) {
        AnswerKeepsInv(s, log, m, luck, w, cfg);
      } else if m.id != IdNull {
        RequestKeepsInv(s, log, m, luck, w, cfg);
      } else {
        assert ClientLine(s, m, luck, w, cfg) == s;
      }
    case Backend(p, m, w) => BackendKeepsInv(s, log, p, m, w, cfg);
    case Lost(p, w) => LostKeepsInv(s, log, p, w, cfg);
    case _ => ElsewhereKeepsInv(s, log, e, cfg);
  }

  // ---------------------------------------------------------------- whole runs

  lemma {:induction false} RunKeepsInv(pool: PoolState, es: seq<MuxEvent>, cfg: Config)
    requires LawfulRun(pool, es, cfg) && NeverSlips(pool, es, cfg)
    ensures Inv(States(pool, es, cfg), History(pool, es, cfg))
  {
    if es != [] {
      var front := es[..|es| - 1];
      RunKeepsInv(pool, front, cfg);
      StepKeepsInv(States(pool, front, cfg), History(pool, front, cfg), es[|es| - 1], cfg);
    }
  }

  /**
   * Exactly one reply. In a run in which clients and backends keep the protocol, every request is, after every step,
   * answered exactly once or in flight exactly once, if and only if the server never slips.
   */
  lemma {:induction false} ExactlyOneReply(pool: PoolState, es: seq<MuxEvent>, cfg: Config)
    requires LawfulRun(pool, es, cfg)
    ensures AlwaysAnsweredOnce(pool, es, cfg) <==> NeverSlips(pool, es, cfg)
  {
    if es == [] {
      RunKeepsInv(pool, es, cfg);
    } else {
      var front := es[..|es| - 1];
      ExactlyOneReply(pool, front, cfg);
      if NeverSlips(pool, front, cfg) {
        RunKeepsInv(pool, front, cfg);
        StepKeepsInv(States(pool, front, cfg), History(pool, front, cfg), es[|es| - 1], cfg);
      }
    }
  }

  // ---------------------------------------------------------------- where answers are misrouted

  /** No request of a thread moves to another backend after it was planned. */
  predicate NothingMoves(pool: PoolState, es: seq<MuxEvent>, cfg: Config) {
    es == [] ||
    (var s, e := States(pool, es[..|es| - 1], cfg), es[|es| - 1];
     && NothingMoves(pool, es[..|es| - 1], cfg)
     && (e.Client? && IsRequest(s, e.m) ==> !Migrates(s, e.m, e.luck, e.w, cfg)))
  }

  /** Answers are expected where their requests are in flight, and only for requests the client has made. */
  ghost predicate Routed(s: Mux, log: Log) {
    RoutedRight(s) && forall k :: k in s.routes.pendingRequests ==> exists y :: y in log.asked && k == IdKey(y)
  }

  lemma RequestStaysRouted(s: Mux, log: Log, m: ClientMessage, luck: Luck, w: World, cfg: Config)
    requires Inv(s, log) && Routed(s, log) && IsRequest(s, m) && FreshRequest(log, m.id)
    requires !Migrates(s, m, luck, w, cfg)
    ensures Routed(ClientLine(s, m, luck, w, cfg), log.(asked := log.asked + [m.id]))
  {
    var t, asked := ClientLine(s, m, luck, w, cfg), log.asked + [m.id];
    FreshIsNew(s, log, m.id);
    if IdKey(m.id) in s.routes.pendingRequests {
      var y :| y in log.asked && IdKey(m.id) == IdKey(y);
      IdKeyInjective(m.id, y);
    }
    RequestRight(s, m, luck, w, cfg);
    forall k | k in t.routes.pendingRequests ensures exists y :: y in asked && k == IdKey(y) {
      if k in s.routes.pendingRequests {
        var y :| y in log.asked && k == IdKey(y);
        assert y in asked;
      } else {
        assert m.id in asked && k == IdKey(m.id);
      }
    }
  }

  lemma StepStaysRouted(s: Mux, log: Log, e: MuxEvent, cfg: Config)
    requires Inv(s, log) && Routed(s, log) && Lawful(s, log, e)
    requires e.Client? && IsRequest(s, e.m) ==> !Migrates(s, e.m, e.luck, e.w, cfg)
    ensures Routed(Step(s, e, cfg), Logged(s, log, e))
  {
    match e
    case Client(m, luck, w) =>
      if !IsRequest(s, m) {
        AnswerRight(s, m, luck, w, cfg);
        ShrunkRight(s, ClientLine(s, m, luck, w, cfg));
      } else if m.id != IdNull {
        RequestStaysRouted(s, log, m, luck, w, cfg);
      } else {
        assert ClientLine(s, m, luck, w, cfg) == s;
      }
    case Backend(p, m, w) => BackendRight(s, p, m, w, cfg);
    case Lost(p, w) =>
      RetireShrinks(s, p, w, cfg);
      ShrunkRight(s, Retire(s, p, w, cfg));
    case _ => ShrunkRight(s, Step(s, e, cfg));
  }

  lemma SolicitedIsRoutedRight(s: Mux, p: string, id: Id)
    requires RoutedRight(s) && Solicited(s, p, id)
    ensures !Misrouted(s, p, id)
  {
    var key := MessageKey(p, id);
    if !Has(s.aggPending, key) {
      var i :| 0 <= i < |s.pending| && s.pending[i] == (key, Get(s.pending, key).value);
      assert s.pending[i] in s.pending;
    }
  }

  lemma {:induction false} RunStaysRouted(pool: PoolState, es: seq<MuxEvent>, cfg: Config)
    requires LawfulRun(pool, es, cfg) && NeverSlips(pool, es, cfg) && NothingMoves(pool, es, cfg)
    ensures Routed(States(pool, es, cfg), History(pool, es, cfg))
  {
    if es != [] {
      var front := es[..|es| - 1];
      RunStaysRouted(pool, front, cfg);
      RunKeepsInv(pool, front, cfg);
      StepStaysRouted(States(pool, front, cfg), History(pool, front, cfg), es[|es| - 1], cfg);
    }
  }

  /** An answer is misrouted only if some request has moved. */
  lemma OnlyMovedAreMisrouted(pool: PoolState, es: seq<MuxEvent>, p: string, id: Id, cfg: Config)
    requires LawfulRun(pool, es, cfg) && NeverSlips(pool, es, cfg) && NothingMoves(pool, es, cfg)
    requires Solicited(States(pool, es, cfg), p, id)
    ensures !Misrouted(States(pool, es, cfg), p, id)
  {
    RunStaysRouted(pool, es, cfg);
    SolicitedIsRoutedRight(States(pool, es, cfg), p, id);
  }

  // ---------------------------------------------------------------- without any assumption

  /** Whatever happens, the keys match their entries and a control lease names the registered control backend. */
  lemma StepWf(s: Mux, e: MuxEvent, cfg: Config, c: Counting)
    requires Sound(s, c) && !c.Exact?
    ensures Sound(Step(s, e, cfg), c)
  {
    match e
    case Client(m, luck, w) => ClientWf(s, m, luck, w, cfg, c);
    case Backend(p, m, w) => BackendWf(s, p, m, w, cfg, c);
    case Lost(p, w) => RetireWf(s, p, w, cfg, c);
    case Exits(p) => RegisterWf(s, p, false, c);
    case Foreign(pe) => WfLooksAt(s, Step(s, e, cfg), c);
  }

  lemma {:induction false} ControlLeaseNamesControlBackend(pool: PoolState, es: seq<MuxEvent>, cfg: Config)
    ensures Sound(States(pool, es, cfg), Unchecked)
    ensures var s := States(pool, es, cfg);
      s.controlLease.Some? ==>
        s.routes.control == Some(s.controlLease.value.profile) && Has(s.backends, s.controlLease.value.profile)
  {
    if es != [] {
      ControlLeaseNamesControlBackend(pool, es[..|es| - 1], cfg);
      StepWf(States(pool, es[..|es| - 1], cfg), es[|es| - 1], cfg, Unchecked);
    }
  }

  // ---------------------------------------------------------------- leases

  /** What the server may rely on: new ids, and other processes that mind their own leases. */
  predicate Minded(s: Mux, e: MuxEvent, cfg: Config) {
    match e
    case Client(m, luck, w) => m.id != IdNull ==> Fresh(s, m.id)
    case Foreign(pe) => HandsOff(s.pool, pe, cfg)
    case _ => true
  }

  predicate MindedRun(pool: PoolState, es: seq<MuxEvent>, cfg: Config) {
    es == [] ||
    (MindedRun(pool, es[..|es| - 1], cfg) && Minded(States(pool, es[..|es| - 1], cfg), es[|es| - 1], cfg))
  }

  /** Where the server loses a lease: a request that does not keep the one it took, and a misrouted answer. */
  predicate Loses(s: Mux, e: MuxEvent, cfg: Config) {
    match e
    case Client(m, luck, w) => LosesLease(s, m, luck, w, cfg)
    case Backend(p, m, w) => m.Answered? && Has(s.backends, p) && SwallowsLease(s, p, m.response)
    case _ => false
  }

  predicate NeverLoses(pool: PoolState, es: seq<MuxEvent>, cfg: Config) {
    es == [] ||
    (NeverLoses(pool, es[..|es| - 1], cfg) && !Loses(States(pool, es[..|es| - 1], cfg), es[|es| - 1], cfg))
  }

  /** The leases of the server that a step prunes: those it finds stale when it is granted a reservation. */
  function Pruned(s: Mux, e: MuxEvent, cfg: Config): set<nat> {
    match e
    case Client(m, luck, w) => PrunedBetween(s.pool, Step(s, e, cfg).pool, w, cfg)
    case Foreign(pe) => PrunedBetween(s.pool, Apply(cfg.policy, s.pool, pe), pe.w, cfg)
    case _ => {}
  }

  /** Where a lease is pruned that the server goes on holding. */
  predicate Prunes(s: Mux, e: MuxEvent, cfg: Config) {
    match e
    case Client(_, _, _) => HoldsAny(Step(s, e, cfg), Pruned(s, e, cfg))
    case Foreign(pe) => PrunesOurs(s.pool, pe, cfg)
    case _ => false
  }

  predicate NeverPrunes(pool: PoolState, es: seq<MuxEvent>, cfg: Config) {
    es == [] ||
    (NeverPrunes(pool, es[..|es| - 1], cfg) && !Prunes(States(pool, es[..|es| - 1], cfg), es[|es| - 1], cfg))
  }

  ghost predicate AlwaysConserved(pool: PoolState, es: seq<MuxEvent>, cfg: Config) {
    Conserved(States(pool, es, cfg), cfg) && (es == [] || AlwaysConserved(pool, es[..|es| - 1], cfg))
  }

  lemma StepConserves(s: Mux, e: MuxEvent, cfg: Config)
    requires Conserved(s, cfg) && Minded(s, e, cfg)
    ensures Conserved(Step(s, e, cfg), cfg) <==> !Loses(s, e, cfg) && !Prunes(s, e, cfg)
  {
    match e
    case Client(m, luck, w) => ClientConserves(s, m, luck, w, cfg);
    case Backend(p, m, w) =>
      if m.Answered? && Has(s.backends, p) {
        ResponseConserves(s, p, m.response, w, cfg);
      } else {
        BackendBalance(s, p, m, w, cfg, {});
      }
    case Lost(p, w) => RetireBalance(s, p, w, cfg, NONE, {});
    case Exits(p) => SameBalance(s, Step(s, e, cfg), NONE, {}, cfg);
    case Foreign(pe) => ForeignConserves(s, pe, cfg);
  }

  lemma NothingHeldYet(pool: PoolState, cfg: Config)
    requires LeaseIdsUnique(pool) && Ours(pool.leases, cfg) == multiset{}
    ensures Conserved(Start(pool), cfg)
  {
    assert Held(Start(pool)) == multiset{};
  }

  /**
   * Lease conservation. Between any two handled messages the leases this process has in the pool are exactly those
   * held by its pending requests and the control reservation, if and only if the server never loses one as named, and
   * none that it holds is pruned.
   */
  lemma {:induction false} LeasesAreConserved(pool: PoolState, es: seq<MuxEvent>, cfg: Config)
    requires LeaseIdsUnique(pool) && Ours(pool.leases, cfg) == multiset{}
    requires MindedRun(pool, es, cfg)
    ensures AlwaysConserved(pool, es, cfg) <==> NeverLoses(pool, es, cfg) && NeverPrunes(pool, es, cfg)
  {
    if es == [] {
      NothingHeldYet(pool, cfg);
    } else {
      var front := es[..|es| - 1];
      LeasesAreConserved(pool, front, cfg);
      if AlwaysConserved(pool, front, cfg) {
        StepConserves(States(pool, front, cfg), es[|es| - 1], cfg);
      }
    }
  }

  /** All leases of the server pruned along a run. */
  function PrunedAlong(pool: PoolState, es: seq<MuxEvent>, cfg: Config): set<nat> {
    if es == [] then {}
    else PrunedAlong(pool, es[..|es| - 1], cfg) + Pruned(States(pool, es[..|es| - 1], cfg), es[|es| - 1], cfg)
  }

  lemma StepBalance(s: Mux, e: MuxEvent, cfg: Config, gone: set<nat>)
    requires Balanced(s, NONE, gone, cfg) && Minded(s, e, cfg) && !Loses(s, e, cfg)
    ensures Balanced(Step(s, e, cfg), NONE, gone + Pruned(s, e, cfg), cfg)
  {
    match e
    case Client(m, luck, w) => ClientBalance(s, m, luck, w, cfg, gone);
    case Foreign(pe) => ForeignBalance(s, pe, cfg, gone);
    case _ =>
      assert gone + {} == gone;
      match e {
        case Backend(p, m, w) => BackendBalance(s, p, m, w, cfg, gone);
        case Lost(p, w) => RetireBalance(s, p, w, cfg, NONE, gone);
        case Exits(p) => SameBalance(s, Step(s, e, cfg), NONE, gone, cfg);
      }
  }

  lemma {:induction false} RunBalance(pool: PoolState, es: seq<MuxEvent>, cfg: Config)
    requires LeaseIdsUnique(pool) && Ours(pool.leases, cfg) == multiset{}
    requires MindedRun(pool, es, cfg) && NeverLoses(pool, es, cfg)
    ensures Balanced(States(pool, es, cfg), NONE, PrunedAlong(pool, es, cfg), cfg)
  {
    if es == [] {
      NothingHeldYet(pool, cfg);
    } else {
      var front := es[..|es| - 1];
      RunBalance(pool, front, cfg);
      StepBalance(States(pool, front, cfg), es[|es| - 1], cfg, PrunedAlong(pool, front, cfg));
    }
  }

  /**
   * However long leases are held: along a run that loses none, the pool has exactly the leases that the server holds
   * and that were never pruned, each once; so it has none that is not held.
   */
  lemma OnlyPrunedAreMissing(pool: PoolState, es: seq<MuxEvent>, cfg: Config)
    requires LeaseIdsUnique(pool) && Ours(pool.leases, cfg) == multiset{}
    requires MindedRun(pool, es, cfg) && NeverLoses(pool, es, cfg)
    ensures var s, ours := States(pool, es, cfg), Ours(States(pool, es, cfg).pool.leases, cfg);
      && ours <= Held(s)
      && forall id ::
        ours[id] == (if id in PrunedAlong(pool, es, cfg) then 0 else Held(s)[id]) && ours[id] <= 1
  {
    RunBalance(pool, es, cfg);
    OursAre(States(pool, es, cfg).pool.leases, cfg);
  }
}
