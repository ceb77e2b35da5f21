/** What the client and the pool learn from a backend: its answers, its end, its share of a list; and who is asked. */
module AnswerLaw {
  import opened Wrappers
  import opened Dicts
  import opened Pool
  import opened PoolHealthRuns
  import opened Router
  import opened Multiplexer
  import opened ReplyLaw
  import opened MuxStructure
  import opened ControlLaw
  import opened ThreadLaw
  import R = FanOutResults

  // ---------------------------------------------------------------- a backend is lost

  lemma {:induction false} ReleasingKeepsHealth(pool: PoolState, leases: seq<nat>)
    ensures ReleaseAll(pool, leases).health == pool.health
  {
    if leases != [] {
      ReleasingKeepsHealth(pool, leases[..|leases| - 1]);
    }
  }

  /** Among these outputs, only errors of a lost backend, and lists that are complete. */
  predicate OnlyErrors(out: seq<Output>) {
    forall o :: o in out ==> o.Reply? && (o.content == ErrorContent(-32005) || o.content.Combined?)
  }

  lemma {:induction false} LostRequestsAreReported(pending: Dict<Key, Pending>, p: string)
    ensures var replies := FailPending(pending, p).1;
      && OnlyErrors(replies)
      && forall e :: e in pending && e.0.0 == p ==> Reply(e.1.client, ErrorContent(-32005)) in replies
  {
    if pending != [] {
      LostRequestsAreReported(pending[..|pending| - 1], p);
      assert pending == pending[..|pending| - 1] + [pending[|pending| - 1]];
    }
  }

  lemma {:induction false} LostSharesAreDropped(aggPending: Dict<Key, nat>, aggs: seq<Aggregate>, p: string)
    ensures var (kept, _, replies) := FailAggregates(aggPending, aggs, p);
      && OnlyErrors(replies) && forall e :: e in kept <==> e in aggPending && e.0.0 != p
  {
    if aggPending != [] {
      LostSharesAreDropped(aggPending[..|aggPending| - 1], aggs, p);
      assert aggPending == aggPending[..|aggPending| - 1] + [aggPending[|aggPending| - 1]];
    }
  }

  /** Each answer that a list no longer waits for has come in as the error of a lost backend. */
  predicate OnlyErrorsCameIn(before: Aggregate, after: Aggregate) {
    && after.client == before.client && before.responses <= after.responses
    && before.expected - after.expected == |after.responses| - |before.responses|
    && forall i :: |before.responses| <= i < |after.responses| ==>
      after.responses[i].says.result.None? && after.responses[i].says.error == Some("{code: -32005}")
  }

  predicate ListsGetErrors(before: seq<Aggregate>, after: seq<Aggregate>) {
    |after| == |before| && forall i :: 0 <= i < |before| ==> OnlyErrorsCameIn(before[i], after[i])
  }

  lemma OneMoreError(before: seq<Aggregate>, mid: seq<Aggregate>, i: nat)
    requires ListsGetErrors(before, mid)
    ensures ListsGetErrors(
      before, AnswerAggregate(mid, i, LostResponse(if i < |mid| then mid[i].client else IdNull)).0)
  {
    if i < |mid| {
      var r := LostResponse(mid[i].client);
      assert before[i].responses <= mid[i].responses + [r];
      assert OnlyErrorsCameIn(before[i], AnswerAggregate(mid, i, r).0[i]);
    }
  }

  lemma {:induction false} LostSharesAreErrors(aggPending: Dict<Key, nat>, aggs: seq<Aggregate>, p: string)
    ensures ListsGetErrors(aggs, FailAggregates(aggPending, aggs, p).1)
  {
    if aggPending != [] {
      LostSharesAreErrors(aggPending[..|aggPending| - 1], aggs, p);
      var mid := FailAggregates(aggPending[..|aggPending| - 1], aggs, p).1;
      var (key, i) := aggPending[|aggPending| - 1];
      if key.0 == p {
        OneMoreError(aggs, mid, i);
      }
    }
  }

  /** The backend is gone with all that was in flight there, which the client is told; its account rests. */
  ghost predicate LossReported(s: Mux, t: Mux, p: string, w: World, cfg: Config) {
    && !Has(t.backends, p) && (forall e :: e in s.backends && e.0 != p ==> e in t.backends)
    && (forall e :: e in t.pending <==> e in s.pending && e.0.0 != p)
    && (forall e :: e in t.aggPending <==> e in s.aggPending && e.0.0 != p) && ListsGetErrors(s.aggs, t.aggs)
    && s.out <= t.out && OnlyErrors(t.out[|s.out|..])
    && (forall e :: e in s.pending && e.0.0 == p ==> Reply(e.1.client, ErrorContent(-32005)) in t.out[|s.out|..])
    && Rests(HealthOf(t.pool, p), HealthOf(s.pool, p), w.now, cfg.policy) && OthersKeep(t.pool, s.pool, p)
  }

  lemma RetireMarks(s: Mux, p: string, w: World, cfg: Config)
    requires Has(s.backends, p)
    ensures var after := Retire(s, p, w, cfg).pool;
      Rests(HealthOf(after, p), HealthOf(s.pool, p), w.now, cfg.policy) && OthersKeep(after, s.pool, p)
  {
    var s1 := s.(backends := Pop(s.backends, p));
    var s2 := if s1.routes.control == Some(p) && s1.controlLease.Some?
              then Freed(s1, Some(s1.controlLease.value.lease)).(controlLease := None) else s1;
    FailureMakes(s2.pool, cfg.policy, p, "process", None, w);
    ReleasingKeepsHealth(MarkFailure(s2.pool, cfg.policy, p, "process", None, w), FailPending(s.pending, p).2);
  }

  lemma FailBackendTells(s: Mux, p: string)
    ensures var t := FailBackend(s, p);
      && s.out <= t.out && OnlyErrors(t.out[|s.out|..])
      && (forall e :: e in s.pending && e.0.0 == p ==> Reply(e.1.client, ErrorContent(-32005)) in t.out[|s.out|..])
      && (forall e :: e in t.pending <==> e in s.pending && e.0.0 != p)
      && (forall e :: e in t.aggPending <==> e in s.aggPending && e.0.0 != p)
      && t.backends == s.backends && ListsGetErrors(s.aggs, t.aggs)
  {
    LostSharesAreErrors(s.aggPending, s.aggs, p);
    var lost, finished := FailPending(s.pending, p).1, FailAggregates(s.aggPending, s.aggs, p).2;
    LostRequestsAreReported(s.pending, p);
    LostSharesAreDropped(s.aggPending, s.aggs, p);
    FailPendingKeeps(s.pending, p);
    assert FailBackend(s, p).out[|s.out|..] == lost + finished;
  }

  lemma RetireReports(s: Mux, p: string, w: World, cfg: Config)
    requires Has(s.backends, p) && UniqueKeys(s.backends)
    ensures LossReported(s, Retire(s, p, w, cfg), p, w, cfg)
  {
    var pool := RetireIs(s, p, w, cfg);
    FailBackendTells(Dropped(s, p).(pool := pool), p);
    RetireMarks(s, p, w, cfg);
  }

  /** A backend that is lost: nothing is in flight there any more, and the client has an error for each request. */
  lemma LossIsReported(s: Mux, p: string, w: World, cfg: Config)
    requires Has(s.backends, p) && UniqueKeys(s.backends)
    ensures LossReported(s, Step(s, Lost(p, w), cfg), p, w, cfg)
  {
    RetireReports(s, p, w, cfg);
    assert Step(s, Lost(p, w), cfg) == Retire(s, p, w, cfg);
  }

  // ---------------------------------------------------------------- a backend answers

  /** The lease a request in flight holds. */
  function HeldFor(s: Mux, p: string, id: Id): Option<nat> {
    var entry := Get(s.pending, MessageKey(p, id));
    if entry.Some? then entry.value.lease else None
  }

  /** The client has the answer; the request and its lease are gone; the account is marked by what the answer is. */
  ghost predicate Delivered(s: Mux, t: Mux, p: string, r: Response, w: World, cfg: Config) {
    && t.out == s.out + [Reply(r.id, FromBackend(r))]
    && (forall e :: e in t.pending <==> e in s.pending && e.0 != MessageKey(p, r.id))
    && (forall l :: l in t.pool.leases <==> l in s.pool.leases && HeldFor(s, p, r.id) != Some(l.id))
    && OthersKeep(t.pool, s.pool, p) && t.backends == s.backends
    && (var h, before := HealthOf(t.pool, p), HealthOf(s.pool, p);
        if !r.isError then Clean(h)
        else if r.code in {Some(401), Some(403)} then Expires(h, w.Fingerprint(p))
        else Rests(h, before, w.now, cfg.policy))
  }

  lemma DeliverTells(s: Mux, s0: Mux, p: string, r: Response, lease: Option<nat>, w: World, cfg: Config)
    requires s0.pool == s.pool && s0.out == s.out && s0.backends == s.backends && lease == HeldFor(s, p, r.id)
    requires forall e :: e in s0.pending <==> e in s.pending && e.0 != MessageKey(p, r.id)
    ensures Delivered(s, Deliver(s0, p, r, lease, w, cfg), p, r, w, cfg)
  {
    var s1 := Freed(Written(s0, Reply(r.id, FromBackend(r))), lease);
    if r.isError {
      FailureMakes(s1.pool, cfg.policy, p, FailureKind(r.code), None, w);
    } else {
      SuccessMakes(s1.pool, cfg.policy, p, w);
    }
  }

  /**
   * An answer from a backend to a request that is not a share of a list. It is passed on, and its account marked by
   * it, unless another backend was to give it; then its backend is lost, and the answer with it.
   */
  lemma AnswersAreDelivered(s: Mux, p: string, r: Response, w: World, cfg: Config)
    requires KeysUnique(s) && Has(s.backends, p) && !Has(s.aggPending, MessageKey(p, r.id))
    ensures var t := Step(s, Backend(p, Answered(r), w), cfg);
      if Misrouted(s, p, r.id) then
        LossReported(s.(pending := Pop(s.pending, MessageKey(p, r.id))), t, p, w, cfg)
      else Delivered(s, t, p, r, w, cfg)
  {
    var key := MessageKey(p, r.id);
    var (routes, expected) := RecordResponse(s.routes, p, r.id, r.thread);
    var s1 := Untracked(s, p, r.id).(routes := routes);
    assert forall e :: e in s1.pending <==> e in s.pending && e.0 != key;
    if expected {
      DeliverTells(s, s1, p, r, LeaseOf(Get(s.pending, key)), w, cfg);
    } else {
      RetireReports(s1, p, w, cfg);
    }
  }

  // ---------------------------------------------------------------- lists

  /** What the answers say, in the order they have come in. */
  predicate SaidInOrder(says: seq<R.Answer>, responses: seq<Response>) {
    |says| == |responses| && forall i :: 0 <= i < |says| ==> says[i] == responses[i].says
  }

  lemma ShareIsHandled(s: Mux, p: string, r: Response, w: World, cfg: Config)
    requires Has(s.backends, p) && Has(s.aggPending, MessageKey(p, r.id))
    ensures var key := MessageKey(p, r.id);
      Step(s, Backend(p, Answered(r), w), cfg) == HandleShare(s, key, Get(s.aggPending, key).value, r)
  {
  }

  /** The answer is put behind those of fan-out i; with the last one, the client is sent all of them combined. */
  ghost predicate PutBehind(s: Mux, t: Mux, i: nat, r: Response, says: seq<R.Answer>)
    requires i < |s.aggs|
  {
    var a := s.aggs[i];
    var all := a.responses + [r];
    && t == s.(aggPending := t.aggPending, aggs := t.aggs, out := t.out)
    && t.aggs == s.aggs[i := Aggregate(a.client, a.expected - 1, all)] && SaidInOrder(says, all)
    && t.out == s.out + if a.expected == 1 then [Reply(a.client, Combined(R.Finish(says)))] else []
  }

  lemma ShareIsPutBehind(s: Mux, key: Key, i: nat, r: Response)
    requires i < |s.aggs|
    ensures PutBehind(s, HandleShare(s, key, i, r), i, r, Says(s.aggs[i].responses + [r]))
  {
  }

  /** A share of a list comes in. */
  lemma SharesComeIn(s: Mux, p: string, r: Response, w: World, cfg: Config) returns (says: seq<R.Answer>)
    requires KeysUnique(s) && Has(s.backends, p) && Has(s.aggPending, MessageKey(p, r.id))
    requires Get(s.aggPending, MessageKey(p, r.id)).value < |s.aggs|
    ensures var key, t := MessageKey(p, r.id), Step(s, Backend(p, Answered(r), w), cfg);
      && PutBehind(s, t, Get(s.aggPending, key).value, r, says)
      && !Has(t.aggPending, key) && (forall e :: e in s.aggPending && e.0 != key ==> e in t.aggPending)
  {
    var i := Get(s.aggPending, MessageKey(p, r.id)).value;
    ShareIsHandled(s, p, r, w, cfg);
    ShareIsPutBehind(s, MessageKey(p, r.id), i, r);
    says := Says(s.aggs[i].responses + [r]);
  }

  lemma {:induction false} RunningAre(backends: Dict<string, bool>, p: string)
    requires UniqueKeys(backends)
    ensures p in RunningBackends(backends) <==> Get(backends, p) == Some(true)
  {
    if backends != [] {
      var front, last := backends[..|backends| - 1], backends[|backends| - 1];
      RunningAre(front, p);
      GetFront(backends, p);
      if p == last.0 {
        OnlyRegisteredRun(front, p);
      }
    }
  }

  lemma {:induction false} FewRun(backends: Dict<string, bool>)
    ensures |RunningBackends(backends)| <= |backends|
  {
    if backends != [] {
      FewRun(backends[..|backends| - 1]);
    }
  }

  lemma {:induction false} AskedAreKept(
    aggPending: Dict<Key, nat>, running: seq<string>, id: Id, agg: nat, n: nat, k: nat)
    requires k < n <= |running|
    ensures exists e :: e in Registered(aggPending, running, id, agg, n) && e.0.0 == running[k] && e.1 == agg
  {
    var before, key := Registered(aggPending, running, id, agg, n - 1), ListKey(id, n - 1, running[n - 1]);
    var all := Registered(aggPending, running, id, agg, n);
    if k < n - 1 {
      AskedAreKept(aggPending, running, id, agg, n - 1, k);
      var e :| e in before && e.0.0 == running[k] && e.1 == agg;
      PutKeeps(before, key, agg, e);
    } else {
      GetPut(before, key, agg, key);
      assert (key, agg) in all;
    }
  }

  lemma PutKeeps(d: Dict<Key, nat>, key: Key, agg: nat, e: (Key, nat))
    requires e in d && e.1 == agg
    ensures e in Put(d, key, agg)
  {
    if Get(d, key).Some? {
      var i :| 0 <= i < |d| && d[i] == e;
      assert Replace(d, key, agg)[i] == e;
    }
  }

  /** The list is under way at exactly the running backends, and its reply is for this client. */
  ghost predicate AsksAll(s: Mux, t: Mux, id: Id) {
    && |t.aggs| == |s.aggs| + 1 && t.aggs[..|s.aggs|] == s.aggs
    && t.aggs[|s.aggs|].client == id && t.aggs[|s.aggs|].responses == []
    && (forall p :: Get(s.backends, p) == Some(true) <==>
          (exists e :: e in t.aggPending && e.0.0 == p && e.1 == |s.aggs|))
  }

  lemma FanOutAsksAll(s: Mux, id: Id, luck: Luck)
    requires UniqueKeys(s.backends) && luck.listed >= |s.backends|
    requires forall e :: e in s.aggPending ==> e.1 < |s.aggs|
    ensures AsksAll(s, FanOut(s, id, luck).0, id)
  {
    var running, n, t := RunningBackends(s.backends), |RunningBackends(s.backends)|, FanOut(s, id, luck).0;
    FewRun(s.backends);
    assert t.aggPending == Registered(s.aggPending, running, id, |s.aggs|, n);
    forall p
      ensures Get(s.backends, p) == Some(true) <==> exists e :: e in t.aggPending && e.0.0 == p && e.1 == |s.aggs|
    {
      RunningAre(s.backends, p);
      if p in running {
        var k: nat :| k < n && running[k] == p;
        AskedAreKept(s.aggPending, running, id, |s.aggs|, n, k);
      } else {
        forall e | e in t.aggPending && e.1 == |s.aggs| ensures e.0.0 != p {
          RegisteredKeys(s.aggPending, running, id, |s.aggs|, n, e);
        }
      }
    }
  }

  /**
   * A list of threads, while control serves and all writes work, is asked of every running backend and of no other.
   */
  lemma ListsAskEveryBackend(s: Mux, m: ClientMessage, luck: Luck, w: World, cfg: Config)
    requires Wf(s) && IsRequest(s, m) && m.verb == Verb("thread/list") && m.id != IdNull
    requires ControlServes(s, w) && luck.listed >= |s.backends|
    ensures AsksAll(s, ClientLine(s, m, luck, w, cfg), m.id)
  {
    GlobalIsHandled(s, m, luck, w, cfg);
    ControlledIsReady(s, luck, w, cfg);
    RunningAre(s.backends, s.routes.control.value);
    FewRun(s.backends);
    FanOutAsksAll(s, m.id, luck);
  }

  // ---------------------------------------------------------------- all other requests

  /** Neither for any account, nor about a thread, nor the start of one or of a session. */
  predicate OtherVerb(m: ClientMessage) {
    m.verb.Verb? && !GlobalVerb(m) && !ThreadVerb(m.verb.name)
    && m.verb.name !in ["initialize", "initialized", "thread/start"]
  }

  /** Such a request goes to the control backend whatever its health, or to a newly reserved one if there is none. */
  predicate OtherServed(s: Mux, t: Mux, id: Id, luck: Luck, w: World, cfg: Config) {
    && t.routes == s.routes
    && (s.routes.control.Some? ==>
          var p := s.routes.control.value;
          && (forall e :: e in t.pending && e.0.1 == IdKey(id) ==> e.0.0 == p) && t.pool.nextId == s.pool.nextId
          && (!luck.dies && luck.written && Get(s.backends, p) == Some(true) ==> Has(t.pending, MessageKey(p, id))))
    && (s.routes.control.None? ==>
          && (forall e :: e in t.pending && e.0.1 == IdKey(id) ==> NewlyReserved(s, t, e.0.0, luck, w, cfg))
          && (AnyEligible(s, luck, w, cfg) && luck.starts && !luck.dies && luck.written ==>
                exists e :: e in t.pending && e.0.1 == IdKey(id)))
  }

  lemma OtherIsHandled(s: Mux, m: ClientMessage, luck: Luck, w: World, cfg: Config)
    requires IsRequest(s, m) && OtherVerb(m)
    ensures HandleClient(s, m, luck, w, cfg)
      == if s.routes.control.Some? then Send(s, s.routes.control.value, m.id, None, true, luck, w, cfg)
         else HandleUnrouted(s, m.id, luck, w, cfg)
  {
    var verb := m.verb.name;
    ThreadVerbs(verb);
    assert verb !in GLOBAL_METHODS;
    assert PlanRequest(s.routes, verb, m.thread, m.id) == (s.routes, PlanBackend(s.routes.control, None));
    assert s.(routes := s.routes) == s;
  }

  lemma UnroutedPlace(s: Mux, id: Id, luck: Luck, w: World, cfg: Config)
    requires id != IdNull && Fresh(s, id)
    ensures var t, lease := HandleUnrouted(s, id, luck, w, cfg).0, Select(s, None, false, luck, w, cfg).1;
      && t.routes == s.routes
      && (if lease.None? then Fresh(t, id) && !(AnyEligible(s, luck, w, cfg) && luck.starts)
          else
            var q := lease.value.profile;
            && (forall e :: e in t.pending && e.0.1 == IdKey(id) ==> e.0.0 == q)
            && NewlyReserved(s, t, q, luck, w, cfg)
            && (!luck.dies && luck.written ==> Has(t.pending, MessageKey(q, id))))
  {
    SelectPicks(s, None, false, luck, w, cfg);
    SelectKeepsFresh(s, None, false, luck, w, cfg, id);
    var (s1, lease) := Select(s, None, false, luck, w, cfg);
    if lease.Some? {
      SendPlace(s1, lease.value.profile, id, Some(lease.value.id), luck, w, cfg);
    }
  }

  lemma PlacedIsIn(t: Mux, q: string, id: Id)
    requires Has(t.pending, MessageKey(q, id))
    ensures exists e :: e in t.pending && e.0.1 == IdKey(id)
  {
    assert (MessageKey(q, id), Get(t.pending, MessageKey(q, id)).value) in t.pending;
  }

  lemma UnroutedIsServed(s: Mux, id: Id, luck: Luck, w: World, cfg: Config)
    requires id != IdNull && Fresh(s, id) && s.routes.control.None?
    ensures OtherServed(s, HandleUnrouted(s, id, luck, w, cfg).0, id, luck, w, cfg)
  {
    var t, lease := HandleUnrouted(s, id, luck, w, cfg).0, Select(s, None, false, luck, w, cfg).1;
    UnroutedPlace(s, id, luck, w, cfg);
    if lease.Some? && Has(t.pending, MessageKey(lease.value.profile, id)) {
      PlacedIsIn(t, lease.value.profile, id);
    }
  }

  /** Where every other request goes; none of them moves control. */
  lemma OtherRequestsAreServed(s: Mux, m: ClientMessage, luck: Luck, w: World, cfg: Config)
    requires IsRequest(s, m) && OtherVerb(m) && m.id != IdNull && Fresh(s, m.id)
    ensures OtherServed(s, ClientLine(s, m, luck, w, cfg), m.id, luck, w, cfg)
  {
    OtherIsHandled(s, m, luck, w, cfg);
    if s.routes.control.Some? {
      SendPlace(s, s.routes.control.value, m.id, None, luck, w, cfg);
    } else {
      UnroutedIsServed(s, m.id, luck, w, cfg);
    }
  }

  /** What asks nothing, or nothing that can be read: it is dropped, or answered with an error if it has an id. */
  lemma NothingIsAsked(s: Mux, m: ClientMessage, luck: Luck, w: World, cfg: Config)
    requires IsRequest(s, m) && (m.verb == Verb("initialized") || !m.verb.Verb?)
    ensures ClientLine(s, m, luck, w, cfg)
      == if m.verb.Verb? || m.id == IdNull then s else s.(out := s.out + [Reply(m.id, ErrorContent(-32005))])
  {
  }

  // ---------------------------------------------------------------- requests and notifications of backends

  /** A notification is passed on as it is. */
  lemma NotificationsArePassedOn(s: Mux, p: string, started: Option<ThreadId>, body: string, w: World, cfg: Config)
    requires Has(s.backends, p)
    ensures var t := Step(s, Backend(p, Notifies(started, body), w), cfg);
      t == s.(routes := t.routes, out := s.out + [Notice(body)])
  {
  }

  /** The client's answer under this id is written to p, and then forgotten; p is lost if the write fails. */
  ghost predicate ComesBackTo(t: Mux, after: Mux, p: string, f: string, luck: Luck, w: World, cfg: Config) {
    var forgotten := t.(routes := t.routes.(serverRequests := t.routes.serverRequests - {f}));
    if luck.written then after == forgotten else LossReported(forgotten, after, p, w, cfg)
  }

  lemma AnswerIsSent(t: Mux, id: Id, p: string, luck: Luck, w: World, cfg: Config)
    requires !luck.dies && Get(t.backends, p) == Some(true) && UniqueKeys(t.backends)
    ensures var (after, ok) := Send(t, p, id, None, false, luck, w, cfg);
      && ok == luck.written
      && (if luck.written then after == t else LossReported(t, after, p, w, cfg))
  {
    ReachSamePlace(t, p, luck, w, cfg);
    if !luck.written {
      RetireReports(t, p, w, cfg);
    }
  }

  lemma AnswerIsHandled(t: Mux, m: ClientMessage, f: string, luck: Luck, w: World, cfg: Config)
    requires m.id == IdStr(f) && "pool:" <= f && f in t.routes.serverRequests
    ensures var request := t.routes.serverRequests[f];
      HandleClient(t, m, luck, w, cfg)
      == Send(t.(routes := t.routes.(serverRequests := t.routes.serverRequests - {f})), request.backend,
              request.original, None, false, luck, w, cfg)
  {
  }

  /** Not a request, and no answer to one: nothing happens. */
  lemma UnknownAnswersAreDropped(s: Mux, m: ClientMessage, f: string, luck: Luck, w: World, cfg: Config)
    requires m.id == IdStr(f) && "pool:" <= f && f !in s.routes.serverRequests && m.verb.NoVerb?
    ensures ClientLine(s, m, luck, w, cfg) == s
  {
  }

  /**
   * A request of a backend is shown to the client under an id that is remembered. The answer under that id goes back
   * to this backend, under the id it gave; a second answer has nowhere to go and is dropped.
   */
  lemma CallsComeBack(s: Mux, p: string, id: Id, body: string, w: World, cfg: Config) returns (f: string)
    requires KeysUnique(s) && Get(s.backends, p) == Some(true)
    ensures var t := Step(s, Backend(p, Calls(id, body), w), cfg);
      && t == s.(routes := t.routes, out := s.out + [ServerCall(f, body)])
      && f in t.routes.serverRequests && t.routes.serverRequests[f] == ServerRequest(p, id)
    ensures var t := Step(s, Backend(p, Calls(id, body), w), cfg);
      forall m: ClientMessage, luck: Luck, w': World :: m.id == IdStr(f) && !luck.dies ==>
        AnswerComesBack(t, m, p, f, luck, w', cfg)
  {
    f := ForwardedId(p, id);
    var t := Step(s, Backend(p, Calls(id, body), w), cfg);
    assert "pool:" <= f;
    forall m: ClientMessage, luck: Luck, w': World | m.id == IdStr(f) && !luck.dies
      ensures AnswerComesBack(t, m, p, f, luck, w', cfg)
    {
      AnswerReturns(t, m, p, f, luck, w', cfg);
    }
  }

  /** The client's message is the answer; it comes back, or is reported to have failed; and it has no second. */
  ghost predicate AnswerComesBack(
    t: Mux, m: ClientMessage, p: string, f: string, luck: Luck, w: World, cfg: Config)
  {
    var after := HandleClient(t, m, luck, w, cfg).0;
    && ComesBackTo(t, after, p, f, luck, w, cfg)
    && ClientLine(t, m, luck, w, cfg)
      == (if luck.written then after else after.(out := after.out + [Reply(m.id, ErrorContent(-32005))]))
    && (m.verb.NoVerb? && luck.written ==> ClientLine(after, m, luck, w, cfg) == after)
  }

  lemma AnswerReturns(t: Mux, m: ClientMessage, p: string, f: string, luck: Luck, w: World, cfg: Config)
    requires m.id == IdStr(f) && "pool:" <= f && !luck.dies && Get(t.backends, p) == Some(true)
    requires UniqueKeys(t.backends) && f in t.routes.serverRequests && t.routes.serverRequests[f].backend == p
    ensures AnswerComesBack(t, m, p, f, luck, w, cfg)
  {
    var forgotten := t.(routes := t.routes.(serverRequests := t.routes.serverRequests - {f}));
    AnswerIsHandled(t, m, f, luck, w, cfg);
    AnswerIsSent(forgotten, t.routes.serverRequests[f].original, p, luck, w, cfg);
    if m.verb.NoVerb? && luck.written {
      UnknownAnswersAreDropped(forgotten, m, f, luck, w, cfg);
    }
  }
}
