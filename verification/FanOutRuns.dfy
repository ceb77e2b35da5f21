/** Fanned-out requests over whole runs: what their replies say, and what becomes of one in which a write fails. */
module FanOutRuns {
  import opened Dicts
  import opened Pool
  import opened Router
  import opened Multiplexer
  import opened ReplyLaw
  import opened MuxStructure
  import opened MuxRuns

  // ---------------------------------------------------------------- whatever happens

  /**
   * In every run, a fan-out that expects no more answers has been answered with the combination of all its answers:
   * of its lists of threads, every entry of every answer, each id once.
   */
  lemma FinishedListsAreMerged(pool: PoolState, es: seq<MuxEvent>, i: nat, key: string, marker: string, cfg: Config)
    requires i < |States(pool, es, cfg).aggs|
    requires key in {"data", "threads"}
    ensures var s := States(pool, es, cfg);
      var answers := Says(s.aggs[i].responses);
      var reply := R.Finish(answers);
      && s.aggs[i].expected >= KeysOf(s.aggPending, i)
      && (s.aggs[i].expected == 0 ==> Reply(s.aggs[i].client, Combined(reply)) in s.out)
      && (R.ListsOnly(answers, key) && R.AnyResult(answers) ==>
            && reply.CombinedResult?
            && R.Unique(R.AllItems(answers, key)) == R.ItemsOf(reply.fields, key)
            && (R.Marked(R.ItemsOf(reply.fields, key), marker) <==> R.Marked(R.AllItems(answers, key), marker)))
  {
    ControlLeaseNamesControlBackend(pool, es, cfg);
    var s := States(pool, es, cfg);
    assert Finished(s.aggs[i], KeysOf(s.aggPending, i), s.out);
    var answers := Says(s.aggs[i].responses);
    if R.ListsOnly(answers, key) && R.AnyResult(answers) {
      R.ThreadsAreMergedOnce(answers, key, marker);
    }
  }

  lemma {:induction false} SurplusNeverShrinks(pool: PoolState, es: seq<MuxEvent>, n: nat, cfg: Config)
    requires n <= |es|
    ensures Sound(States(pool, es, cfg), Since(States(pool, es[..n], cfg)))
  {
    if n == |es| {
      assert es[..n] == es;
      ControlLeaseNamesControlBackend(pool, es, cfg);
    } else {
      var front := es[..|es| - 1];
      assert front[..n] == es[..n];
      SurplusNeverShrinks(pool, front, n, cfg);
      StepWf(States(pool, front, cfg), es[|es| - 1], cfg, Since(States(pool, es[..n], cfg)));
    }
  }

  /** A fan-out that expects more answers than it has keys never ends. */
  lemma SurplusStaysInFlight(pool: PoolState, es: seq<MuxEvent>, n: nat, i: nat, cfg: Config)
    requires n <= |es| && i < |States(pool, es[..n], cfg).aggs|
    requires var t := States(pool, es[..n], cfg); Surplus(t.aggPending, t.aggs, i) > 0
    ensures InFlight(States(pool, es, cfg), States(pool, es[..n], cfg).aggs[i].client) > 0
  {
    SurplusNeverShrinks(pool, es, n, cfg);
    ExpectedIsInFlight(States(pool, es, cfg).aggs, i);
  }

  // ---------------------------------------------------------------- the fan-out

  /** The next fan-out has this many keys, and the ones before it have what they had. */
  predicate NextHas(before: Dict<Key, nat>, agg: nat, after: Dict<Key, nat>, n: nat) {
    KeysOf(after, agg) == n && forall i :: 0 <= i < agg ==> KeysOf(after, i) == KeysOf(before, i)
  }

  lemma FirstAreRegistered(s: Mux, running: seq<string>, id: Id, n: nat)
    requires Sound(s, Exact) && n <= |running|
    requires forall m: nat :: m < n ==> NewAt(s.aggPending, running, id, |s.aggs|, m)
    ensures NextHas(s.aggPending, |s.aggs|, Registered(s.aggPending, running, id, |s.aggs|, n), n)
  {
    NoKeysYet(s.aggPending, |s.aggs|);
    forall i: nat {
      RegisteredCount(s.aggPending, running, id, |s.aggs|, n, i);
    }
  }

  lemma KeysAreNew(s: Mux, running: seq<string>, id: Id, n: nat)
    requires Sound(s, Exact) && TextUnused(s, id) && n <= |running| && AllDistinct(running)
    ensures forall m: nat :: m < n ==> NewAt(s.aggPending, running, id, |s.aggs|, m)
  {
    forall m: nat | m < n ensures NewAt(s.aggPending, running, id, |s.aggs|, m) {
      NextKeyIsNew(s, running, id, m);
    }
  }

  lemma BrokenFanOut(s: Mux, id: Id, luck: Luck)
    requires Sound(s, Exact) && TextUnused(s, id) && luck.listed < |RunningBackends(s.backends)|
    ensures NextHas(s.aggPending, |s.aggs|, FanOut(s, id, luck).0.aggPending, luck.listed + 1)
  {
    NewKeysAreRegistered(s, RunningBackends(s.backends), id, luck.listed + 1);
    FanOutRegisters(s, id, luck);
  }

  lemma NewKeysAreRegistered(s: Mux, running: seq<string>, id: Id, n: nat)
    requires Sound(s, Exact) && TextUnused(s, id) && running == RunningBackends(s.backends) && n <= |running|
    ensures NextHas(s.aggPending, |s.aggs|, Registered(s.aggPending, running, id, |s.aggs|, n), n)
  {
    RunningAreDistinct(s.backends);
    KeysAreNew(s, running, id, n);
    FirstAreRegistered(s, running, id, n);
  }

  lemma FanOutRegisters(s: Mux, id: Id, luck: Luck)
    requires luck.listed < |RunningBackends(s.backends)|
    ensures FanOut(s, id, luck).0.aggPending
      == Registered(s.aggPending, RunningBackends(s.backends), id, |s.aggs|, luck.listed + 1)
  {
  }

  /** The server after the error for a broken list is sent: one fan-out more, with too few keys. */
  predicate Breaks(s: Mux, m: ClientMessage, luck: Luck, w: World, cfg: Config) {
    IsRequest(s, m) && m.id != IdNull && ListBreaks(s, m, luck, w, cfg)
  }

  lemma BrokenListIs(s: Mux, m: ClientMessage, luck: Luck, w: World, cfg: Config) returns (s1: Mux)
    requires Sound(s, Exact) && TextUnused(s, m.id) && Breaks(s, m, luck, w, cfg)
    ensures ClientLine(s, m, luck, w, cfg) == Written(FanOut(s1, m.id, luck).0,
      Reply(m.id, ErrorContent(BACKEND_FAILED)))
    ensures Sound(s1, Exact) && TextUnused(s1, m.id) && luck.listed < |RunningBackends(s1.backends)|
  {
    ListIsGlobal(s, m, luck, w, cfg);
    ControlledWf(s, luck, w, cfg, Exact);
    s1 := Controlled(s, luck, w, cfg).0;
    forall y { MoveControlAdds(s, luck, w, cfg, y); }
  }

  // ---------------------------------------------------------------- when every backend asked is lost

  /** These backends are lost, in turn. */
  function LoseAll(s: Mux, ps: seq<string>, w: World, cfg: Config): Mux {
    if ps == [] then s else Retire(LoseAll(s, ps[..|ps| - 1], w, cfg), ps[|ps| - 1], w, cfg)
  }

  /** From one state to a later one: requests and keys are only dropped, and no fan-out loses or gains surplus. */
  predicate OnlyDrops(s: Mux, t: Mux) {
    && (forall e :: e in t.pending ==> e in s.pending)
    && (forall e :: e in t.aggPending ==> e in s.aggPending)
    && |t.aggs| == |s.aggs|
    && forall i :: 0 <= i < |s.aggs| ==>
      t.aggs[i].client == s.aggs[i].client && Surplus(t.aggPending, t.aggs, i) == Surplus(s.aggPending, s.aggs, i)
  }

  lemma FailBackendDrops(s: Mux, p: string)
    ensures OnlyDrops(s, FailBackend(s, p)) && forall e :: e in FailBackend(s, p).aggPending ==> e.0.0 != p
    ensures FailBackend(s, p).backends == s.backends
  {
    FailPendingKeeps(s.pending, p);
    FailAggregatesKeeps(s.aggPending, s.aggs, p);
    var t := FailBackend(s, p);
    forall i | 0 <= i < |s.aggs|
      ensures t.aggs[i].expected - KeysOf(t.aggPending, i) == s.aggs[i].expected - KeysOf(s.aggPending, i)
    {
      FailAggregatesCount(s.aggPending, s.aggs, p, i);
    }
  }

  lemma RetireDrops(s: Mux, p: string, w: World, cfg: Config)
    requires Has(s.backends, p)
    ensures var t := Retire(s, p, w, cfg);
      && OnlyDrops(s, t) && (forall e :: e in t.aggPending ==> e.0.0 != p)
      && t.backends == Pop(s.backends, p)
  {
    var pool := RetireIs(s, p, w, cfg);
    FailBackendDrops(Dropped(s, p).(pool := pool), p);
  }

  lemma RetirePops(s: Mux, p: string, w: World, cfg: Config)
    ensures Retire(s, p, w, cfg).backends == if Has(s.backends, p) then Pop(s.backends, p) else s.backends
  {
  }

  lemma {:induction false} LosingLeaves(s: Mux, ps: seq<string>, w: World, cfg: Config, q: string)
    requires q !in ps && UniqueKeys(s.backends)
    ensures var t := LoseAll(s, ps, w, cfg); Get(t.backends, q) == Get(s.backends, q) && UniqueKeys(t.backends)
  {
    if ps != [] {
      var front, last := LoseAll(s, ps[..|ps| - 1], w, cfg), ps[|ps| - 1];
      LosingLeaves(s, ps[..|ps| - 1], w, cfg, q);
      RetirePops(front, last, w, cfg);
      GetPop(front.backends, last, q);
    }
  }

  predicate AllLost(s: Mux, t: Mux, ps: seq<string>) {
    OnlyDrops(s, t) && forall e :: e in t.aggPending ==> e.0.0 !in ps
  }

  lemma DropsTwice(s: Mux, t: Mux, u: Mux)
    requires OnlyDrops(s, t) && OnlyDrops(t, u)
    ensures OnlyDrops(s, u)
  {
    forall i | 0 <= i < |s.aggs|
      ensures u.aggs[i].client == s.aggs[i].client
        && Surplus(u.aggPending, u.aggs, i) == Surplus(s.aggPending, s.aggs, i)
    {
      assert Surplus(t.aggPending, t.aggs, i) == Surplus(s.aggPending, s.aggs, i);
    }
  }

  lemma LostNext(s: Mux, t: Mux, u: Mux, ps: seq<string>, p: string)
    requires AllLost(s, t, ps) && OnlyDrops(t, u) && forall e :: e in u.aggPending ==> e.0.0 != p
    ensures AllLost(s, u, ps + [p])
  {
    DropsTwice(s, t, u);
  }

  predicate AllHad(backends: Dict<string, bool>, ps: seq<string>) {
    forall i :: 0 <= i < |ps| ==> Has(backends, ps[i])
  }

  lemma FrontIsHad(backends: Dict<string, bool>, ps: seq<string>)
    requires AllDistinct(ps) && AllHad(backends, ps) && ps != []
    ensures AllDistinct(ps[..|ps| - 1]) && AllHad(backends, ps[..|ps| - 1])
    ensures Has(backends, ps[|ps| - 1]) && ps[|ps| - 1] !in ps[..|ps| - 1]
  {
  }

  lemma NoneLost(s: Mux)
    ensures AllLost(s, s, [])
  {
  }

  lemma {:induction false} LosingAllDrops(s: Mux, ps: seq<string>, w: World, cfg: Config)
    requires UniqueKeys(s.backends) && AllDistinct(ps) && AllHad(s.backends, ps)
    ensures AllLost(s, LoseAll(s, ps, w, cfg), ps)
  {
    if ps == [] {
      NoneLost(s);
    } else {
      var front := ps[..|ps| - 1];
      FrontIsHad(s.backends, ps);
      LosingAllDrops(s, front, w, cfg);
      LastIsHad(s, ps, w, cfg);
      LosingOneMore(s, LoseAll(s, front, w, cfg), ps, w, cfg);
    }
  }

  lemma LastIsHad(s: Mux, ps: seq<string>, w: World, cfg: Config)
    requires UniqueKeys(s.backends) && AllDistinct(ps) && AllHad(s.backends, ps) && ps != []
    ensures Has(LoseAll(s, ps[..|ps| - 1], w, cfg).backends, ps[|ps| - 1])
  {
    FrontIsHad(s.backends, ps);
    LosingLeaves(s, ps[..|ps| - 1], w, cfg, ps[|ps| - 1]);
  }

  lemma LosingOneMore(s: Mux, t: Mux, ps: seq<string>, w: World, cfg: Config)
    requires ps != [] && AllLost(s, t, ps[..|ps| - 1]) && Has(t.backends, ps[|ps| - 1])
    ensures AllLost(s, Retire(t, ps[|ps| - 1], w, cfg), ps)
  {
    var front, p := ps[..|ps| - 1], ps[|ps| - 1];
    RetireDrops(t, p, w, cfg);
    LostNext(s, t, Retire(t, p, w, cfg), front, p);
    assert front + [p] == ps;
  }

  lemma {:induction false} LosingAllKeepsTotal(s: Mux, ps: seq<string>, w: World, cfg: Config, id: Id)
    ensures Total(LoseAll(s, ps, w, cfg), id) == Total(s, id)
  {
    if ps != [] {
      LosingAllKeepsTotal(s, ps[..|ps| - 1], w, cfg, id);
      RetireKeepsTotal(LoseAll(s, ps[..|ps| - 1], w, cfg), ps[|ps| - 1], w, cfg, id);
    }
  }

  lemma KeysStayAway(before: Dict<Key, nat>, after: Dict<Key, nat>, i: nat)
    requires KeysOf(before, i) == 0 && forall e :: e in after ==> e in before
    ensures KeysOf(after, i) == 0
  {
    forall e | e in after ensures e.1 != i {
      KeyCounts(before, e);
    }
    NoKeysYet(after, i);
  }

  lemma {:induction false} NoneFor(aggs: seq<Aggregate>, id: Id)
    requires forall i :: 0 <= i < |aggs| && aggs[i].client == id ==> aggs[i].expected <= 0
    ensures FanOutsFor(aggs, id) == 0
  {
    if aggs != [] {
      NoneFor(aggs[..|aggs| - 1], id);
    }
  }

  lemma {:induction false} NonePendingFor(pending: Dict<Key, Pending>, id: Id)
    requires forall e :: e in pending ==> e.1.client != id
    ensures PendingFor(pending, id) == 0
  {
    if pending != [] {
      NonePendingFor(pending[..|pending| - 1], id);
    }
  }

  /** Nothing was known of this id before its fan-out; afterwards only the fan-out is. */
  lemma InFlightIs(s: Mux, t: Mux, id: Id)
    requires Counted(s.aggPending, s.aggs) && Total(s, id) == 0
    requires |t.aggs| == |s.aggs| + 1 && t.aggs[|s.aggs|].client == id
    requires forall e :: e in t.pending ==> e in s.pending
    requires forall i :: 0 <= i < |s.aggs| ==> t.aggs[i].client == s.aggs[i].client
    requires forall i :: 0 <= i < |s.aggs| ==> Surplus(t.aggPending, t.aggs, i) == 0
    requires forall i :: 0 <= i < |s.aggs| && KeysOf(s.aggPending, i) == 0 ==> KeysOf(t.aggPending, i) == 0
    ensures InFlight(t, id) == if t.aggs[|s.aggs|].expected > 0 then 1 else 0
  {
    forall e | e in t.pending ensures e.1.client != id {
      PendingCounts(s.pending, e);
    }
    NonePendingFor(t.pending, id);
    var front := t.aggs[..|s.aggs|];
    forall i | 0 <= i < |front| && front[i].client == id ensures front[i].expected <= 0 {
      assert s.aggs[i].expected == KeysOf(s.aggPending, i);
      if s.aggs[i].expected > 0 {
        ExpectedIsInFlight(s.aggs, i);
      }
      assert Surplus(t.aggPending, t.aggs, i) == 0;
    }
    NoneFor(front, id);
  }

  // ---------------------------------------------------------------- the results

  lemma RunningAreHad(backends: Dict<string, bool>)
    ensures AllHad(backends, RunningBackends(backends))
  {
    var running := RunningBackends(backends);
    forall i | 0 <= i < |running| ensures Has(backends, running[i]) {
      if Get(backends, running[i]).None? {
        OnlyRegisteredRun(backends, running[i]);
      }
    }
  }

  /** The last fan-out is for this id, and expects answers that can never come. */
  predicate HasSurplus(t: Mux, id: Id) {
    t.aggs != [] && t.aggs[|t.aggs| - 1].client == id && Surplus(t.aggPending, t.aggs, |t.aggs| - 1) > 0
  }

  /** The fan-out of a broken list has a surplus when more backends were left than the one whose write failed. */
  lemma BrokenListLeaves(s: Mux, m: ClientMessage, luck: Luck, w: World, cfg: Config)
    requires Sound(s, Exact) && TextUnused(s, m.id) && Breaks(s, m, luck, w, cfg)
    ensures var t := ClientLine(s, m, luck, w, cfg);
      HasSurplus(t, m.id) <==> luck.listed + 1 < |RunningBackends(t.backends)|
  {
    var s1 := BrokenListIs(s, m, luck, w, cfg);
    BrokenFanOut(s1, m.id, luck);
  }

  /** Once its backends are lost, a broken fan-out has no key left. */
  lemma NoKeyLeft(s: Mux, id: Id, luck: Luck, t: Mux)
    requires Sound(s, Exact) && luck.listed < |RunningBackends(s.backends)|
    requires AllLost(FanOut(s, id, luck).0, t, RunningBackends(s.backends))
    ensures KeysOf(t.aggPending, |s.aggs|) == 0
  {
    var running := RunningBackends(s.backends);
    FanOutRegisters(s, id, luck);
    forall e | e in t.aggPending ensures e.1 != |s.aggs| {
      NewKeysName(s.aggPending, s.aggs, running, id, luck.listed + 1, e);
    }
    NoKeysYet(t.aggPending, |s.aggs|);
  }

  /** The keys of a new fan-out name the backends it asks. */
  lemma NewKeysName(
    aggPending: Dict<Key, nat>, aggs: seq<Aggregate>, running: seq<string>, id: Id, n: nat, e: (Key, nat))
    requires ListKeyed(aggPending, aggs) && n <= |running| && e in Registered(aggPending, running, id, |aggs|, n)
    ensures e.1 != |aggs| || e.0.0 in running
  {
    RegisteredKeys(aggPending, running, id, |aggs|, n, e);
    if e in aggPending {
      assert Keyed(e, aggs);
    }
  }

  lemma OthersAreFinished(s: Mux, id: Id, luck: Luck, t: Mux)
    requires Sound(s, Exact) && TextUnused(s, id) && luck.listed < |RunningBackends(s.backends)|
    requires OnlyDrops(FanOut(s, id, luck).0, t)
    ensures InFlight(t, id) == if t.aggs[|s.aggs|].expected > 0 then 1 else 0
  {
    BrokenFanOut(s, id, luck);
    var broken := FanOut(s, id, luck).0;
    forall i | 0 <= i < |s.aggs|
      ensures t.aggs[i].client == s.aggs[i].client && Surplus(t.aggPending, t.aggs, i) == 0
      ensures KeysOf(s.aggPending, i) == 0 ==> KeysOf(t.aggPending, i) == 0
    {
      assert broken.aggs[i] == s.aggs[i];
      if KeysOf(s.aggPending, i) == 0 {
        KeysStayAway(broken.aggPending, t.aggPending, i);
      }
    }
    InFlightIs(s, t, id);
  }

  lemma BrokenFanOutEnds(s: Mux, id: Id, luck: Luck, t: Mux)
    requires Sound(s, Exact) && TextUnused(s, id) && luck.listed < |RunningBackends(s.backends)|
    requires AllLost(FanOut(s, id, luck).0, t, RunningBackends(s.backends))
    ensures InFlight(t, id) == if luck.listed + 1 < |RunningBackends(s.backends)| then 1 else 0
  {
    BrokenFanOut(s, id, luck);
    NoKeyLeft(s, id, luck, t);
    OthersAreFinished(s, id, luck, t);
    assert FanOut(s, id, luck).0.aggs[|s.aggs|].expected == |RunningBackends(s.backends)|;
  }

  /** After a run without slips, a request with a new id is a thread/list in which a write fails. */
  ghost predicate BreaksAfter(pool: PoolState, es: seq<MuxEvent>, m: ClientMessage, luck: Luck, w: World, cfg: Config) {
    && LawfulRun(pool, es, cfg) && NeverSlips(pool, es, cfg) && FreshRequest(History(pool, es, cfg), m.id)
    && Breaks(States(pool, es, cfg), m, luck, w, cfg)
  }

  lemma BreaksInOrder(pool: PoolState, es: seq<MuxEvent>, m: ClientMessage, luck: Luck, w: World, cfg: Config)
    requires BreaksAfter(pool, es, m, luck, w, cfg)
    ensures var s := States(pool, es, cfg);
      Sound(s, Exact) && TextUnused(s, m.id) && Fresh(s, m.id) && Total(s, m.id) == 0
  {
    RunKeepsInv(pool, es, cfg);
    FreshIsNew(States(pool, es, cfg), History(pool, es, cfg), m.id);
  }

  /**
   * When a broken list is answered twice. It is answered with an error; when all backends are lost then, it is
   * answered again if and only if the write that failed was that of the last backend.
   */
  lemma BrokenListIsAnsweredAgain(
    pool: PoolState, es: seq<MuxEvent>, m: ClientMessage, luck: Luck, w: World, later: World, cfg: Config)
    requires BreaksAfter(pool, es, m, luck, w, cfg)
    ensures var t := ClientLine(States(pool, es, cfg), m, luck, w, cfg);
      var running := RunningBackends(t.backends);
      var gone := LoseAll(t, running, later, cfg);
      && Total(t, m.id) == 2
      && Replies(gone.out, m.id) == (if luck.listed + 1 == |running| then 2 else 1)
      && InFlight(gone, m.id) == (if luck.listed + 1 == |running| then 0 else 1)
  {
    var s := States(pool, es, cfg);
    BreaksInOrder(pool, es, m, luck, w, cfg);
    var s1 := BrokenListIs(s, m, luck, w, cfg);
    RequestCounts(s, m, luck, w, cfg, m.id);
    var broken, t := FanOut(s1, m.id, luck).0, ClientLine(s, m, luck, w, cfg);
    var running := RunningBackends(t.backends);
    RunningAreHad(t.backends);
    RunningAreDistinct(t.backends);
    LosingAllDrops(t, running, later, cfg);
    LosingAllKeepsTotal(t, running, later, cfg, m.id);
    BrokenFanOutEnds(s1, m.id, luck, LoseAll(t, running, later, cfg));
  }

  /** Otherwise it is in flight for ever, whatever happens: it waits for a backend it has not asked. */
  lemma BrokenListIsInFlight(
    pool: PoolState, es: seq<MuxEvent>, n: nat, m: ClientMessage, luck: Luck, w: World, cfg: Config)
    requires n < |es| && es[n] == Client(m, luck, w) && BreaksAfter(pool, es[..n], m, luck, w, cfg)
    requires luck.listed + 1 < |RunningBackends(States(pool, es[..n + 1], cfg).backends)|
    ensures InFlight(States(pool, es, cfg), m.id) > 0
  {
    var s := States(pool, es[..n], cfg);
    BreaksInOrder(pool, es[..n], m, luck, w, cfg);
    ClientNext(pool, es, n, m, luck, w, cfg);
    BrokenListLeaves(s, m, luck, w, cfg);
    LastStaysInFlight(pool, es, n + 1, m.id, cfg);
  }

  lemma ClientNext(pool: PoolState, es: seq<MuxEvent>, n: nat, m: ClientMessage, luck: Luck, w: World, cfg: Config)
    requires n < |es| && es[n] == Client(m, luck, w)
    ensures States(pool, es[..n + 1], cfg) == ClientLine(States(pool, es[..n], cfg), m, luck, w, cfg)
  {
    assert es[..n + 1][..n] == es[..n];
  }

  lemma LastStaysInFlight(pool: PoolState, es: seq<MuxEvent>, n: nat, id: Id, cfg: Config)
    requires n <= |es| && HasSurplus(States(pool, es[..n], cfg), id)
    ensures InFlight(States(pool, es, cfg), id) > 0
  {
    SurplusStaysInFlight(pool, es, n, |States(pool, es[..n], cfg).aggs| - 1, cfg);
  }

  // ---------------------------------------------------------------- fan-outs that can finish

  /** Where a backend is left unasked: a list breaks before the last write. */
  predicate LeavesOut(s: Mux, e: MuxEvent, cfg: Config) {
    && e.Client? && Breaks(s, e.m, e.luck, e.w, cfg)
    && e.luck.listed + 1 < |RunningBackends(ClientLine(s, e.m, e.luck, e.w, cfg).backends)|
  }

  predicate NeverLeavesOut(pool: PoolState, es: seq<MuxEvent>, cfg: Config) {
    es == [] ||
    (NeverLeavesOut(pool, es[..|es| - 1], cfg) && !LeavesOut(States(pool, es[..|es| - 1], cfg), es[|es| - 1], cfg))
  }

  /** Every fan-out can finish: it expects exactly as many answers as it has keys in the table. */
  predicate Complete(s: Mux) {
    Counted(s.aggPending, s.aggs)
  }

  predicate AlwaysComplete(pool: PoolState, es: seq<MuxEvent>, cfg: Config) {
    Complete(States(pool, es, cfg)) && (es == [] || AlwaysComplete(pool, es[..|es| - 1], cfg))
  }

  lemma RequestUsesOne(s: Mux, log: Log, m: ClientMessage, luck: Luck, w: World, cfg: Config)
    requires KeyedById(s) && NeverUsed(s, log) && IsRequest(s, m) && FreshRequest(log, m.id)
    ensures NeverUsed(ClientLine(s, m, luck, w, cfg), log.(asked := log.asked + [m.id]))
  {
    FreshIsNew(s, log, m.id);
    forall y | y !in log.asked + [m.id] && y !in log.answered
      ensures Total(ClientLine(s, m, luck, w, cfg), y) == 0
    {
      assert y !in log.asked && m.id in log.asked + [m.id];
      RequestCounts(s, m, luck, w, cfg, y);
    }
  }

  lemma AnswerUsesOne(s: Mux, log: Log, m: ClientMessage, luck: Luck, w: World, cfg: Config)
    requires NeverUsed(s, log) && !IsRequest(s, m)
    ensures NeverUsed(ClientLine(s, m, luck, w, cfg), Logged(s, log, Client(m, luck, w)))
  {
    forall y { AnswerCountsNothing(s, m, luck, w, cfg, y); }
    forall y | y != m.id { WrittenAdds(HandleClient(s, m, luck, w, cfg).0, m.id, ErrorContent(BACKEND_FAILED), y); }
  }

  lemma BackendUsesNone(s: Mux, log: Log, p: string, m: BackendMessage, w: World, cfg: Config)
    requires KeyedById(s) && NeverUsed(s, log) && Lawful(s, log, Backend(p, m, w))
    ensures NeverUsed(BackendLine(s, p, m, w, cfg), log)
  {
    forall y | Total(s, y) == 0 ensures Total(BackendLine(s, p, m, w, cfg), y) == 0 {
      if m.Answered? && Has(s.backends, p) {
        ResponseCounts(s, p, m.response, w, cfg, y);
      } else {
        BackendCountsNothing(s, p, m, w, cfg, y);
      }
    }
  }

  /** Over every lawful run, whether the server slips or not. */
  lemma StepUsesOne(s: Mux, log: Log, e: MuxEvent, cfg: Config)
    requires KeyedById(s) && NeverUsed(s, log) && Lawful(s, log, e)
    ensures NeverUsed(Step(s, e, cfg), Logged(s, log, e))
  {
    match e
    case Client(m, luck, w) =>
      if !IsRequest(s, m) {
        AnswerUsesOne(s, log, m, luck, w, cfg);
      } else if m.id != IdNull {
        RequestUsesOne(s, log, m, luck, w, cfg);
      } else {
        assert ClientLine(s, m, luck, w, cfg) == s;
      }
    case Backend(p, m, w) => BackendUsesNone(s, log, p, m, w, cfg);
    case Lost(p, w) =>
      forall y { RetireKeepsTotal(s, p, w, cfg, y); }
    case _ =>
      forall y ensures Total(Step(s, e, cfg), y) == Total(s, y) {}
  }

  /** A list that breaks leaves all fan-outs complete if and only if it leaves no backend out. */
  lemma BrokenListCompletes(s: Mux, m: ClientMessage, luck: Luck, w: World, cfg: Config)
    requires Sound(s, Exact) && TextUnused(s, m.id) && Breaks(s, m, luck, w, cfg)
    ensures var t := ClientLine(s, m, luck, w, cfg);
      Complete(t) <==> luck.listed + 1 == |RunningBackends(t.backends)|
  {
    var s1 := BrokenListIs(s, m, luck, w, cfg);
    BrokenFanOut(s1, m.id, luck);
    FanOutRegisters(s1, m.id, luck);
    var running := RunningBackends(s1.backends);
    OneMoreCounted(
      s1.aggPending, s1.aggs, Registered(s1.aggPending, running, m.id, |s1.aggs|, luck.listed + 1),
      Aggregate(m.id, |running|, []), luck.listed + 1);
  }

  lemma OneMoreCounted(before: Dict<Key, nat>, aggs: seq<Aggregate>, after: Dict<Key, nat>, a: Aggregate, n: nat)
    requires Counted(before, aggs) && NextHas(before, |aggs|, after, n)
    ensures Counted(after, aggs + [a]) <==> a.expected == n
  {
    var all := aggs + [a];
    assert all[|aggs|] == a;
    forall i | 0 <= i < |aggs| ensures all[i].expected == KeysOf(after, i) {
      assert all[i] == aggs[i];
    }
  }

  lemma StepCompletes(s: Mux, log: Log, e: MuxEvent, cfg: Config)
    requires Sound(s, Exact) && NeverUsed(s, log) && Lawful(s, log, e)
    ensures Complete(Step(s, e, cfg)) <==> !LeavesOut(s, e, cfg)
  {
    match e
    case Client(m, luck, w) =>
      if IsRequest(s, m) && m.id != IdNull {
        FreshIsNew(s, log, m.id);
        if ListBreaks(s, m, luck, w, cfg) {
          BrokenListCompletes(s, m, luck, w, cfg);
          BreaksWithinRunning(s, m, luck, w, cfg);
        } else {
          ClientWf(s, m, luck, w, cfg, Exact);
        }
      } else {
        ClientWf(s, m, luck, w, cfg, Exact);
      }
    case Backend(p, m, w) => BackendWf(s, p, m, w, cfg, Exact);
    case Lost(p, w) => RetireWf(s, p, w, cfg, Exact);
    case Exits(p) => RegisterWf(s, p, false, Exact);
    case Foreign(pe) => WfLooksAt(s, Step(s, e, cfg), Exact);
  }

  lemma BreaksWithinRunning(s: Mux, m: ClientMessage, luck: Luck, w: World, cfg: Config)
    requires Sound(s, Exact) && TextUnused(s, m.id) && Breaks(s, m, luck, w, cfg)
    ensures luck.listed < |RunningBackends(ClientLine(s, m, luck, w, cfg).backends)|
  {
    var s1 := BrokenListIs(s, m, luck, w, cfg);
  }

  lemma {:induction false} RunUsesOne(pool: PoolState, es: seq<MuxEvent>, cfg: Config)
    requires LawfulRun(pool, es, cfg)
    ensures NeverUsed(States(pool, es, cfg), History(pool, es, cfg)) && Sound(States(pool, es, cfg), Unchecked)
  {
    ControlLeaseNamesControlBackend(pool, es, cfg);
    if es != [] {
      var front := es[..|es| - 1];
      RunUsesOne(pool, front, cfg);
      StepUsesOne(States(pool, front, cfg), History(pool, front, cfg), es[|es| - 1], cfg);
    }
  }

  /** In a lawful run every fan-out can always finish if and only if no list leaves a backend out. */
  lemma {:induction false} FanOutsAreComplete(pool: PoolState, es: seq<MuxEvent>, cfg: Config)
    requires LawfulRun(pool, es, cfg)
    ensures AlwaysComplete(pool, es, cfg) <==> NeverLeavesOut(pool, es, cfg)
  {
    if es != [] {
      var front := es[..|es| - 1];
      FanOutsAreComplete(pool, front, cfg);
      if AlwaysComplete(pool, front, cfg) {
        RunUsesOne(pool, front, cfg);
        StepCompletes(States(pool, front, cfg), History(pool, front, cfg), es[|es| - 1], cfg);
      }
    }
  }
}
