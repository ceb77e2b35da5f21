/**
 * Replies are conserved. For every client id, the replies sent plus the places where the id is in flight (pending
 * entries and unfinished fan-outs) change only when the client uses the id in a request, and then by one.
 */
module ReplyLaw {
  import opened Wrappers
  import opened Dicts
  import opened Pool
  import opened Router
  import opened Multiplexer

  // ---------------------------------------------------------------- counting

  function Replies(out: seq<Output>, y: Id): nat {
    if out == [] then 0
    else Replies(out[..|out| - 1], y) + if out[|out| - 1].Reply? && out[|out| - 1].id == y then 1 else 0
  }

  function PendingFor(pending: Dict<Key, Pending>, y: Id): nat {
    if pending == [] then 0
    else PendingFor(pending[..|pending| - 1], y) + if pending[|pending| - 1].1.client == y then 1 else 0
  }

  /** Fan-outs whose reply is still to come. */
  function FanOutsFor(aggs: seq<Aggregate>, y: Id): nat {
    if aggs == [] then 0
    else FanOutsFor(aggs[..|aggs| - 1], y) + if aggs[|aggs| - 1].client == y && aggs[|aggs| - 1].expected > 0 then 1
      else 0
  }

  function InFlight(s: Mux, y: Id): nat {
    PendingFor(s.pending, y) + FanOutsFor(s.aggs, y)
  }

  function Total(s: Mux, y: Id): nat {
    Replies(s.out, y) + InFlight(s, y)
  }

  lemma {:induction false} RepliesConcat(a: seq<Output>, b: seq<Output>, y: Id)
    ensures Replies(a + b, y) == Replies(a, y) + Replies(b, y)
  {
    if b == [] {
      assert a + b == a;
    } else {
      RepliesConcat(a, b[..|b| - 1], y);
      assert (a + b)[..|a + b| - 1] == a + b[..|b| - 1];
    }
  }

  lemma RepliesOne(a: seq<Output>, o: Output, y: Id)
    ensures Replies(a + [o], y) == Replies(a, y) + if o.Reply? && o.id == y then 1 else 0
  {
    assert (a + [o])[..|a|] == a;
  }

  lemma PendingAppend(pending: Dict<Key, Pending>, key: Key, e: Pending, y: Id)
    ensures PendingFor(pending + [(key, e)], y) == PendingFor(pending, y) + if e.client == y then 1 else 0
  {
    assert (pending + [(key, e)])[..|pending|] == pending;
  }

  lemma {:induction false} PendingPop(pending: Dict<Key, Pending>, key: Key, y: Id)
    ensures PendingFor(Pop(pending, key), y) ==
      PendingFor(pending, y) - if Has(pending, key) && Get(pending, key).value.client == y then 1 else 0
  {
    if pending != [] && pending[|pending| - 1].0 != key {
      PendingPop(pending[..|pending| - 1], key, y);
      PendingAppend(Pop(pending[..|pending| - 1], key), pending[|pending| - 1].0, pending[|pending| - 1].1, y);
    }
  }

  lemma {:induction false} FanOutsUpdate(aggs: seq<Aggregate>, i: nat, a: Aggregate, y: Id)
    requires i < |aggs| && a.client == aggs[i].client
    ensures FanOutsFor(aggs[i := a], y) == FanOutsFor(aggs, y)
      + (if a.client == y && a.expected > 0 then 1 else 0) - (if a.client == y && aggs[i].expected > 0 then 1 else 0)
  {
    var after := aggs[i := a];
    if i == |aggs| - 1 {
      assert after[..i] == aggs[..i];
    } else {
      FanOutsUpdate(aggs[..|aggs| - 1], i, a, y);
      assert after[..|aggs| - 1] == aggs[..|aggs| - 1][i := a];
    }
  }

  // ---------------------------------------------------------------- losing a backend answers everything it owed

  lemma {:induction false} FailPendingAnswers(pending: Dict<Key, Pending>, p: string, y: Id)
    ensures var (kept, replies, _) := FailPending(pending, p);
      PendingFor(pending, y) == PendingFor(kept, y) + Replies(replies, y)
  {
    if pending != [] {
      FailPendingAnswers(pending[..|pending| - 1], p, y);
      var (kept, replies, _) := FailPending(pending[..|pending| - 1], p);
      var (key, entry) := pending[|pending| - 1];
      PendingAppend(kept, key, entry, y);
      RepliesOne(replies, Reply(entry.client, ErrorContent(BACKEND_FAILED)), y);
    }
  }

  lemma AnswerAggregateCounts(aggs: seq<Aggregate>, i: nat, r: Response, y: Id)
    ensures var (after, replies) := AnswerAggregate(aggs, i, r);
      FanOutsFor(aggs, y) == FanOutsFor(after, y) + Replies(replies, y)
  {
    if i < |aggs| {
      var (after, replies) := AnswerAggregate(aggs, i, r);
      FanOutsUpdate(aggs, i, after[i], y);
      RepliesOne([], ListReply(after[i]), y);
      assert [] + [ListReply(after[i])] == [ListReply(after[i])];
    }
  }

  lemma {:induction false} FailAggregatesAnswers(aggPending: Dict<Key, nat>, aggs: seq<Aggregate>, p: string, y: Id)
    ensures var (_, after, replies) := FailAggregates(aggPending, aggs, p);
      FanOutsFor(aggs, y) == FanOutsFor(after, y) + Replies(replies, y)
  {
    if aggPending != [] {
      FailAggregatesAnswers(aggPending[..|aggPending| - 1], aggs, p, y);
      var (kept, mid, replies) := FailAggregates(aggPending[..|aggPending| - 1], aggs, p);
      var (key, i) := aggPending[|aggPending| - 1];
      if key.0 == p {
        var r := LostResponse(if i < |mid| then mid[i].client else IdNull);
        AnswerAggregateCounts(mid, i, r, y);
        RepliesConcat(replies, AnswerAggregate(mid, i, r).1, y);
      }
    }
  }

  lemma RetireKeepsTotal(s: Mux, p: string, w: World, cfg: Config, y: Id)
    ensures Total(Retire(s, p, w, cfg), y) == Total(s, y)
  {
    var (_, lost, _) := FailPending(s.pending, p);
    var (_, _, finished) := FailAggregates(s.aggPending, s.aggs, p);
    FailPendingAnswers(s.pending, p, y);
    FailAggregatesAnswers(s.aggPending, s.aggs, p, y);
    RepliesConcat(s.out + lost, finished, y);
    RepliesConcat(s.out, lost, y);
  }

  // ---------------------------------------------------------------- what a handler may assume and must give

  /** No pending request has this id. */
  predicate Fresh(s: Mux, id: Id) {
    forall e :: e in s.pending ==> e.0.1 != IdKey(id)
  }

  lemma {:induction false} FailPendingKeeps(pending: Dict<Key, Pending>, p: string)
    ensures forall e :: e in FailPending(pending, p).0 <==> e in pending && e.0.0 != p
  {
    if pending != [] {
      FailPendingKeeps(pending[..|pending| - 1], p);
    }
  }

  lemma RetireKeepsFresh(s: Mux, p: string, w: World, cfg: Config, id: Id)
    requires Fresh(s, id)
    ensures Fresh(Retire(s, p, w, cfg), id)
  {
    FailPendingKeeps(s.pending, p);
  }

  // Each lemma below is about one handler and one id y: the count of y grows by one exactly when y is the id of
  // the message and the handler put it in flight or answered it.

  lemma EnsureAdds(s: Mux, p: string, starts: bool, w: World, cfg: Config, y: Id)
    ensures Total(Ensure(s, p, starts, w, cfg).0, y) == Total(s, y)
  {
    RetireKeepsTotal(s, p, w, cfg, y);
  }

  lemma EnsureKeepsFresh(s: Mux, p: string, starts: bool, w: World, cfg: Config, id: Id)
    requires Fresh(s, id)
    ensures Fresh(Ensure(s, p, starts, w, cfg).0, id)
  {
    RetireKeepsFresh(s, p, w, cfg, id);
  }

  /** The state a selection leaves behind differs from the given one by a pool file and by what Ensure does. */
  lemma SelectIsEnsure(s: Mux, routeKey: Option<string>, migrate: bool, luck: Luck, w: World, cfg: Config)
    returns (pool: PoolState, p: string, pool': PoolState)
    ensures var (t, lease) := Select(s, routeKey, migrate, luck, w, cfg);
      || t == s
      || t == Ensure(s.(pool := pool), p, luck.starts, w, cfg).0.(pool := pool')
  {
    pool, p, pool' := s.pool, "", s.pool;
    if luck.fetch.Some? {
      var fetch := luck.fetch.value;
      var (after, r) := Reserve(s.pool, cfg.policy, fetch.profiles, fetch.usages,
        SelectRequest(routeKey, migrate, cfg), w);
      if r.Reserved? {
        pool, p, pool' := after, r.lease.profile, Select(s, routeKey, migrate, luck, w, cfg).0.pool;
      }
    }
  }

  lemma SelectAdds(s: Mux, routeKey: Option<string>, migrate: bool, luck: Luck, w: World, cfg: Config, y: Id)
    ensures Total(Select(s, routeKey, migrate, luck, w, cfg).0, y) == Total(s, y)
  {
    var pool, p, pool' := SelectIsEnsure(s, routeKey, migrate, luck, w, cfg);
    EnsureAdds(s.(pool := pool), p, luck.starts, w, cfg, y);
  }

  lemma SelectKeepsFresh(s: Mux, routeKey: Option<string>, migrate: bool, luck: Luck, w: World, cfg: Config, id: Id)
    requires Fresh(s, id)
    ensures Fresh(Select(s, routeKey, migrate, luck, w, cfg).0, id)
  {
    var pool, p, pool' := SelectIsEnsure(s, routeKey, migrate, luck, w, cfg);
    EnsureKeepsFresh(s.(pool := pool), p, luck.starts, w, cfg, id);
  }

  lemma TrackedAdds(s: Mux, p: string, id: Id, lease: Option<nat>, y: Id)
    requires Fresh(s, id)
    ensures Total(Tracked(s, p, id, lease), y) == Total(s, y) + if y == id then 1 else 0
    ensures Pop(Tracked(s, p, id, lease).pending, MessageKey(p, id)) == s.pending
  {
    var key := MessageKey(p, id);
    assert Get(s.pending, key).None?;
    PendingAppend(s.pending, key, Pending(id, lease), y);
    assert (s.pending + [(key, Pending(id, lease))])[..|s.pending|] == s.pending;
  }

  lemma ReachAdds(s: Mux, p: string, luck: Luck, w: World, cfg: Config, y: Id)
    ensures Total(Reach(s, p, luck, w, cfg).0, y) == Total(s, y)
  {
    EnsureAdds(if luck.dies then Died(s, p) else s, p, luck.restarts, w, cfg, y);
  }

  lemma ReachKeepsFresh(s: Mux, p: string, luck: Luck, w: World, cfg: Config, id: Id)
    requires Fresh(s, id)
    ensures Fresh(Reach(s, p, luck, w, cfg).0, id)
  {
    EnsureKeepsFresh(if luck.dies then Died(s, p) else s, p, luck.restarts, w, cfg, id);
  }

  /** A tracked request is in flight once its message is written, and left no trace if that failed. */
  lemma WriteAdds(s: Mux, p: string, id: Id, lease: Option<nat>, track: bool, luck: Luck, w: World, cfg: Config, y: Id)
    requires track ==> if id == IdNull then y != IdNull else Fresh(s, id)
    ensures var (t, ok) := Write(s, p, id, lease, track, luck, w, cfg);
      Total(t, y) == Total(s, y) + if ok && track && y == id then 1 else 0
  {
    if track && id != IdNull {
      TrackedAdds(s, p, id, lease, y);
      assert Untracked(Tracked(s, p, id, lease), p, id) == s;
    }
    RetireKeepsTotal(Freed(s, lease), p, w, cfg, y);
  }

  lemma SendAdds(s: Mux, p: string, id: Id, lease: Option<nat>, track: bool, luck: Luck, w: World, cfg: Config, y: Id)
    requires track ==> if id == IdNull then y != IdNull else Fresh(s, id)
    ensures var (t, ok) := Send(s, p, id, lease, track, luck, w, cfg);
      Total(t, y) == Total(s, y) + if ok && track && y == id then 1 else 0
  {
    ReachAdds(s, p, luck, w, cfg, y);
    var (s1, up) := Reach(s, p, luck, w, cfg);
    if up {
      if track && id != IdNull {
        ReachKeepsFresh(s, p, luck, w, cfg, id);
      }
      WriteAdds(s1, p, id, lease, track, luck, w, cfg, y);
    }
  }

  lemma MoveControlIsSelect(s: Mux, luck: Luck, w: World, cfg: Config) returns (s1: Mux)
    ensures s1 == s.(pool := s1.pool, controlLease := None)
    ensures var t := MoveControl(s, luck, w, cfg).0;
      var t1 := Select(s1, Some(CONTROL_KEY), s.routes.control.Some?, luck, w, cfg).0;
      t == t1.(routes := t.routes, controlLease := t.controlLease)
  {
    s1 := if s.controlLease.Some? then Freed(s, Some(s.controlLease.value.lease)).(controlLease := None) else s;
  }

  lemma MoveControlAdds(s: Mux, luck: Luck, w: World, cfg: Config, y: Id)
    ensures Total(MoveControl(s, luck, w, cfg).0, y) == Total(s, y)
  {
    var s1 := MoveControlIsSelect(s, luck, w, cfg);
    SelectAdds(s1, Some(CONTROL_KEY), s.routes.control.Some?, luck, w, cfg, y);
  }

  lemma MoveControlKeepsFresh(s: Mux, luck: Luck, w: World, cfg: Config, id: Id)
    requires Fresh(s, id)
    ensures Fresh(MoveControl(s, luck, w, cfg).0, id)
  {
    var s1 := MoveControlIsSelect(s, luck, w, cfg);
    SelectKeepsFresh(s1, Some(CONTROL_KEY), s.routes.control.Some?, luck, w, cfg, id);
  }

  lemma WrittenAdds(s: Mux, id: Id, c: Content, y: Id)
    ensures Total(Written(s, Reply(id, c)), y) == Total(s, y) + if y == id then 1 else 0
  {
    RepliesOne(s.out, Reply(id, c), y);
  }

  lemma InitializeAdds(s: Mux, id: Id, luck: Luck, w: World, cfg: Config, y: Id)
    ensures var (t, ok) := HandleInitialize(s, id, luck, w, cfg);
      Total(t, y) == Total(s, y) + if ok && y == id then 1 else 0
  {
    MoveControlAdds(s, luck, w, cfg, y);
    var (s1, ok) := InitialControl(s, luck, w, cfg);
    if ok && s1.routes.control.Some? {
      var p := s1.routes.control.value;
      ReachAdds(s1, p, luck, w, cfg, y);
      WrittenAdds(Reach(s1, p, luck, w, cfg).0, id, InitialResult(p), y);
    }
  }

  lemma FanOutAdds(s: Mux, id: Id, luck: Luck, y: Id)
    requires RunningBackends(s.backends) != []
    ensures Total(FanOut(s, id, luck).0, y) == Total(s, y) + if y == id then 1 else 0
  {
    var a := Aggregate(id, |RunningBackends(s.backends)|, []);
    assert (s.aggs + [a])[..|s.aggs|] == s.aggs;
  }

  /** The fan-out of a thread/list in which a write fails. */
  predicate FanOutBreaks(s: Mux, verb: string, luck: Luck, w: World, cfg: Config) {
    var (s1, ok) := Controlled(s, luck, w, cfg);
    verb == "thread/list" && ok && s1.routes.control.Some? && luck.listed < |RunningBackends(s1.backends)|
  }

  lemma GlobalAdds(s: Mux, verb: string, id: Id, luck: Luck, w: World, cfg: Config, y: Id)
    requires if id == IdNull then y != IdNull else Fresh(s, id)
    ensures var (t, ok) := HandleGlobal(s, verb, id, luck, w, cfg);
      && Total(t, y) == Total(s, y) + (if (ok || FanOutBreaks(s, verb, luck, w, cfg)) && y == id then 1 else 0)
      && (FanOutBreaks(s, verb, luck, w, cfg) ==> !ok)
  {
    MoveControlAdds(s, luck, w, cfg, y);
    if id != IdNull {
      MoveControlKeepsFresh(s, luck, w, cfg, id);
    }
    var (s1, ok) := Controlled(s, luck, w, cfg);
    if ok && s1.routes.control.Some? {
      if verb != "thread/list" || RunningBackends(s1.backends) == [] {
        SendAdds(s1, s1.routes.control.value, id, None, true, luck, w, cfg, y);
      } else {
        FanOutAdds(s1, id, luck, y);
      }
    }
  }

  lemma MigratedAdds(s: Mux, p: string, routeKey: string, id: Id, luck: Luck, w: World, cfg: Config, y: Id)
    requires if id == IdNull then y != IdNull else Fresh(s, id)
    ensures var (t, ok) := HandleMigrated(s, p, routeKey, id, luck, w, cfg);
      Total(t, y) == Total(s, y) + if ok && y == id then 1 else 0
  {
    var s1 := if Running(s, p) then s else s.(pool := MarkFailure(s.pool, cfg.policy, p, "process", None, w));
    SelectAdds(s1, Some(routeKey), true, luck, w, cfg, y);
    var (s2, lease) := Select(s1, Some(routeKey), true, luck, w, cfg);
    if lease.Some? {
      if id != IdNull {
        SelectKeepsFresh(s1, Some(routeKey), true, luck, w, cfg, id);
      }
      var q := lease.value.profile;
      SendAdds(s2.(routes := BindRoute(s2.routes, routeKey, q)), q, id, Some(lease.value.id), true, luck, w, cfg, y);
    }
  }

  lemma RoutedAdds(s: Mux, p: string, routeKey: Option<string>, id: Id, luck: Luck, w: World, cfg: Config, y: Id)
    requires if id == IdNull then y != IdNull else Fresh(s, id)
    ensures var (t, ok) := HandleRouted(s, p, routeKey, id, luck, w, cfg);
      Total(t, y) == Total(s, y) + if ok && y == id then 1 else 0
  {
    if routeKey.None? || (Running(s, p) && BackendHealthy(s, p, w)) {
      SendAdds(s, p, id, None, true, luck, w, cfg, y);
    } else {
      MigratedAdds(s, p, routeKey.value, id, luck, w, cfg, y);
    }
  }

  lemma StartAdds(s: Mux, id: Id, luck: Luck, w: World, cfg: Config, y: Id)
    requires if id == IdNull then y != IdNull else Fresh(s, id)
    ensures var (t, ok) := HandleStart(s, id, luck, w, cfg);
      Total(t, y) == Total(s, y) + if ok && y == id then 1 else 0
  {
    SelectAdds(s, None, false, luck, w, cfg, y);
    var (s1, lease) := Select(s, None, false, luck, w, cfg);
    if lease.Some? {
      if id != IdNull {
        SelectKeepsFresh(s, None, false, luck, w, cfg, id);
      }
      var s2 := s1.(routes := Remember(s1.routes, id, lease.value.profile));
      SendAdds(s2, lease.value.profile, id, Some(lease.value.id), true, luck, w, cfg, y);
    }
  }

  lemma UnroutedAdds(s: Mux, id: Id, luck: Luck, w: World, cfg: Config, y: Id)
    requires if id == IdNull then y != IdNull else Fresh(s, id)
    ensures var (t, ok) := HandleUnrouted(s, id, luck, w, cfg);
      Total(t, y) == Total(s, y) + if ok && y == id then 1 else 0
  {
    SelectAdds(s, None, false, luck, w, cfg, y);
    var (s1, lease) := Select(s, None, false, luck, w, cfg);
    if lease.Some? {
      if id != IdNull {
        SelectKeepsFresh(s, None, false, luck, w, cfg, id);
      }
      SendAdds(s1, lease.value.profile, id, Some(lease.value.id), true, luck, w, cfg, y);
    }
  }

  lemma ListIsGlobal(s: Mux, m: ClientMessage, luck: Luck, w: World, cfg: Config)
    ensures HandleOther(s, "thread/list", m, luck, w, cfg) == HandleGlobal(s, "thread/list", m.id, luck, w, cfg)
  {
    assert !NamesThread("thread/list");
    assert PlanRequest(s.routes, "thread/list", m.thread, m.id) == (s.routes, PlanAggregate);
    assert s.(routes := s.routes) == s;
  }

  lemma PlanAdds(s: Mux, verb: string, plan: Plan, id: Id, luck: Luck, w: World, cfg: Config, y: Id)
    requires (if id == IdNull then y != IdNull else Fresh(s, id)) && !plan.PlanLocal? && !plan.PlanAggregate?
    ensures var (t, ok) := HandlePlan(s, verb, plan, id, luck, w, cfg);
      Total(t, y) == Total(s, y) + if ok && y == id then 1 else 0
  {
    match plan
    case PlanSelect => StartAdds(s, id, luck, w, cfg, y);
    case PlanBackend(p, routeKey) =>
      if p.Some? {
        RoutedAdds(s, p.value, routeKey, id, luck, w, cfg, y);
      } else {
        UnroutedAdds(s, id, luck, w, cfg, y);
      }
    case _ => WrittenAdds(s, id, ErrorContent(NO_ROUTE), y);
  }

  lemma PlanIsNotLocal(t: Routes, verb: string, thread: Option<ThreadId>, id: Id)
    requires verb != "initialize" && verb != "initialized" && verb != "thread/list"
    ensures var plan := PlanRequest(t, verb, thread, id).1; !plan.PlanLocal? && !plan.PlanAggregate?
  {
  }

  lemma PlannedAdds(s: Mux, verb: string, m: ClientMessage, luck: Luck, w: World, cfg: Config, y: Id)
    requires if m.id == IdNull then y != IdNull else Fresh(s, m.id)
    requires verb != "initialize" && verb != "initialized" && verb != "thread/list"
    ensures var (t, ok) := HandleOther(s, verb, m, luck, w, cfg);
      Total(t, y) == Total(s, y) + if ok && y == m.id then 1 else 0
  {
    PlanIsNotLocal(s.routes, verb, m.thread, m.id);
    var (routes, plan) := PlanRequest(s.routes, verb, m.thread, m.id);
    PlanAdds(s.(routes := routes), verb, plan, m.id, luck, w, cfg, y);
  }

  lemma OtherAdds(s: Mux, verb: string, m: ClientMessage, luck: Luck, w: World, cfg: Config, y: Id)
    requires (if m.id == IdNull then y != IdNull else Fresh(s, m.id)) && verb != "initialize" && verb != "initialized"
    ensures var (t, ok) := HandleOther(s, verb, m, luck, w, cfg);
      && Total(t, y) == Total(s, y) + (if (ok || FanOutBreaks(s, verb, luck, w, cfg)) && y == m.id then 1 else 0)
      && (FanOutBreaks(s, verb, luck, w, cfg) ==> !ok)
  {
    if verb == "thread/list" {
      ListIsGlobal(s, m, luck, w, cfg);
      GlobalAdds(s, verb, m.id, luck, w, cfg, y);
    } else {
      PlannedAdds(s, verb, m, luck, w, cfg, y);
    }
  }

  // ---------------------------------------------------------------- one handled message

  /** The message is a request: not an answer to a backend, and not an unsolicited response. */
  predicate IsRequest(s: Mux, m: ClientMessage) {
    !IsServerAnswer(s, m) && !IsIgnored(s, m)
  }

  predicate IsInitialized(m: ClientMessage) {
    m.verb == Verb("initialized")
  }

  predicate ListBreaks(s: Mux, m: ClientMessage, luck: Luck, w: World, cfg: Config) {
    m.verb.Verb? && FanOutBreaks(s, m.verb.name, luck, w, cfg)
  }

  lemma ClientAdds(s: Mux, m: ClientMessage, luck: Luck, w: World, cfg: Config, y: Id)
    requires IsRequest(s, m) && if m.id == IdNull then y != IdNull else Fresh(s, m.id)
    ensures var (t, ok) := HandleClient(s, m, luck, w, cfg);
      && Total(t, y) == Total(s, y)
           + (if ((ok && !IsInitialized(m)) || ListBreaks(s, m, luck, w, cfg)) && y == m.id then 1 else 0)
      && (ListBreaks(s, m, luck, w, cfg) ==> !ok) && (IsInitialized(m) ==> ok)
  {
    if m.verb.Verb? {
      var verb := m.verb.name;
      if verb == "initialize" {
        InitializeAdds(s, m.id, luck, w, cfg, y);
      } else if verb == "initialized" {
      } else if verb in GLOBAL_METHODS && verb != "thread/list" {
        GlobalAdds(s, verb, m.id, luck, w, cfg, y);
      } else if verb == "thread/start" {
        StartAdds(s, m.id, luck, w, cfg, y);
      } else {
        OtherAdds(s, verb, m, luck, w, cfg, y);
      }
    }
  }

  /**
   * A request with an unused id is answered once or in flight once, with two exceptions: an `initialized` that
   * carries an id is never answered, and a thread/list in which a write fails is answered and in flight.
   */
  lemma RequestCounts(s: Mux, m: ClientMessage, luck: Luck, w: World, cfg: Config, y: Id)
    requires IsRequest(s, m) && if m.id == IdNull then y != IdNull else Fresh(s, m.id)
    ensures Total(ClientLine(s, m, luck, w, cfg), y) == Total(s, y)
      + if y != m.id || IsInitialized(m) then 0 else if ListBreaks(s, m, luck, w, cfg) then 2 else 1
  {
    ClientAdds(s, m, luck, w, cfg, y);
    WrittenAdds(HandleClient(s, m, luck, w, cfg).0, m.id, ErrorContent(BACKEND_FAILED), y);
  }

  /** Answers to backends count for nothing, nor do ignored messages. */
  lemma AnswerCountsNothing(s: Mux, m: ClientMessage, luck: Luck, w: World, cfg: Config, y: Id)
    requires !IsRequest(s, m)
    ensures Total(HandleClient(s, m, luck, w, cfg).0, y) == Total(s, y)
  {
    if IsServerAnswer(s, m) {
      var (routes, request) := RouteResponse(s.routes, m.id.s);
      SendAdds(s.(routes := routes), request.value.backend, request.value.original, None, false, luck, w, cfg, y);
    }
  }

  /** The backend was asked under this id and has not answered. */
  predicate Solicited(s: Mux, p: string, id: Id) {
    Has(s.aggPending, MessageKey(p, id)) || Has(s.pending, MessageKey(p, id))
  }

  /** The route table expects this answer from another backend. */
  predicate Misrouted(s: Mux, p: string, id: Id) {
    && !Has(s.aggPending, MessageKey(p, id))
    && IdKey(id) in s.routes.pendingRequests && s.routes.pendingRequests[IdKey(id)] != p
  }

  /** The key of a pending request is the text of its id. */
  predicate KeyedById(s: Mux) {
    forall e :: e in s.pending ==> e.0.1 == IdKey(e.1.client)
  }

  lemma ShareCounts(s: Mux, key: Key, i: nat, r: Response, y: Id)
    ensures Total(HandleShare(s, key, i, r), y) == Total(s, y)
  {
    AnswerAggregateCounts(s.aggs, i, r, y);
    RepliesConcat(s.out, AnswerAggregate(s.aggs, i, r).1, y);
  }

  lemma DeliverCounts(s: Mux, p: string, r: Response, lease: Option<nat>, w: World, cfg: Config, y: Id)
    ensures Total(Deliver(s, p, r, lease, w, cfg), y) == Total(s, y) + if y == r.id then 1 else 0
  {
    WrittenAdds(s, r.id, FromBackend(r), y);
  }

  lemma UntrackedCounts(s: Mux, p: string, id: Id, y: Id)
    requires KeyedById(s)
    ensures Total(Untracked(s, p, id), y) == Total(s, y) - if y == id && Has(s.pending, MessageKey(p, id)) then 1 else 0
  {
    var key := MessageKey(p, id);
    PendingPop(s.pending, key, y);
    if Has(s.pending, key) {
      IdKeyInjective(Get(s.pending, key).value.client, id);
    }
  }

  /** An answer to a request that is not fanned out: passed on, or swallowed when it was expected from elsewhere. */
  lemma DirectCounts(s: Mux, p: string, r: Response, w: World, cfg: Config, y: Id)
    requires KeyedById(s) && Has(s.backends, p) && !Has(s.aggPending, MessageKey(p, r.id))
    ensures Total(BackendLine(s, p, Answered(r), w, cfg), y) == Total(s, y)
      - (if y == r.id && Has(s.pending, MessageKey(p, r.id)) then 1 else 0)
      + (if y == r.id && !Misrouted(s, p, r.id) then 1 else 0)
  {
    var (routes, expected) := RecordResponse(s.routes, p, r.id, r.thread);
    var s2 := Untracked(s, p, r.id).(routes := routes);
    UntrackedCounts(s, p, r.id, y);
    assert Total(s2, y) == Total(Untracked(s, p, r.id), y);
    if expected {
      DeliverCounts(s2, p, r, LeaseOf(Get(s.pending, MessageKey(p, r.id))), w, cfg, y);
    } else {
      RetireKeepsTotal(s2, p, w, cfg, y);
    }
  }

  /**
   * A backend's answer moves its request from in flight to answered, with two exceptions: an answer nobody asked
   * for is passed on all the same, and a misrouted one is swallowed after its request has been forgotten.
   */
  lemma ResponseCounts(s: Mux, p: string, r: Response, w: World, cfg: Config, y: Id)
    requires KeyedById(s) && Has(s.backends, p)
    ensures Total(BackendLine(s, p, Answered(r), w, cfg), y) == Total(s, y) +
      if y != r.id || Solicited(s, p, r.id) == !Misrouted(s, p, r.id) then 0
      else if Solicited(s, p, r.id) then -1 else 1
  {
    var key := MessageKey(p, r.id);
    if Has(s.aggPending, key) {
      ShareCounts(s, key, Get(s.aggPending, key).value, r, y);
    } else {
      DirectCounts(s, p, r, w, cfg, y);
    }
  }
}
