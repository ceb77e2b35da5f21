/** What a streamed call sends: one response, unless a callback breaks inside an error handler. */
module StreamedResponse {
  import opened Wrappers
  import opened AccountUsages
  import opened Pool
  import opened Failover

  /** Nothing is sent. */
  predicate Silent(acts: seq<Act>) {
    forall i :: 0 <= i < |acts| ==> acts[i].Reserves? || acts[i].Opens?
  }

  /** One response: its headers once, then chunks only; no account is touched after the headers. */
  ghost predicate OneResponse(acts: seq<Act>) {
    exists h :: 0 <= h < |acts| && acts[h].Headers? && Silent(acts[..h])
      && forall i :: h < i < |acts| ==> acts[i].Chunk?
  }

  ghost predicate AtMostOne(acts: seq<Act>) {
    Silent(acts) || OneResponse(acts)
  }

  lemma CallsAreOne(acts: seq<Act>, status: int, bodies: seq<Body>, callback: Callback)
    requires Silent(acts)
    ensures OneResponse(acts + Calls(status, bodies, callback))
  {
    var all, h := acts + Calls(status, bodies, callback), |acts|;
    assert all[..h] == acts && all[h] == Headers(status);
    assert forall i :: h < i < |all| ==> all[i] == Calls(status, bodies, callback)[i - h];
  }

  /** What has begun is not begun again, and what is untidy stays so. */
  lemma MoreAfter(acts: seq<Act>, more: seq<Act>)
    requires more != [] && !more[0].Chunk? && !Silent(acts)
    ensures !AtMostOne(acts + more)
  {
    var all := acts + more;
    assert all[|acts|] == more[0];
    var i :| 0 <= i < |acts| && !(acts[i].Reserves? || acts[i].Opens?);
    assert all[i] == acts[i];
    forall h | 0 <= h < |all|
      ensures !all[h].Headers? || !Silent(all[..h]) || !(forall j :: h < j < |all| ==> all[j].Chunk?)
    {
      if i < h {
        assert all[..h][i] == all[i];
      }
    }
  }

  // ---------------------------------------------------------------- one turn

  lemma EndedSends(c: Call, lease: PoolLease, t: Turn, d: Decision, last: bool, policy: PoolPolicy)
    requires c.verdict.Trying?
    ensures var after := Ended(c, lease, t, d, HandOver(d, t, last), policy);
      && (!Silent(c.acts) ==> !AtMostOne(after.acts))
      && (Silent(c.acts) ==> (AtMostOne(after.acts) <==> !(last && Relapses(d, t))))
      && (Silent(c.acts) ==> (Silent(after.acts) <==> d.next.Again?))
  {
    var sent, taken := HandOver(d, t, last).sent, c.acts + Taking(lease, d.opens);
    assert c.acts + (Taking(lease, d.opens) + sent) == taken + sent;
    if !Silent(c.acts) {
      MoreAfter(c.acts, Taking(lease, d.opens) + sent);
    } else if d.next.Final? {
      FinalSends(taken, d, t, last);
    } else {
      assert taken + sent == taken;
    }
  }

  lemma EndingIs(d: Decision, t: Turn, last: bool)
    requires d.next.Again? ==> !last
    ensures var v := HandOver(d, t, last).verdict;
      (v.Trying? <==> !last && (d.next.Again? || Relapses(d, t))) && !v.Raised?
  {
  }

  lemma UseSends(c: Call, lease: PoolLease, t: Turn, last: bool, cfg: ProxyConfig)
    requires c.verdict.Trying?
    ensures var d := Decide(Streaming, t.upstream, last);
      var after := Use(c, Streaming, lease, t, last, cfg);
      && (!Silent(c.acts) ==> !AtMostOne(after.acts))
      && (Silent(c.acts) ==> (AtMostOne(after.acts) <==> !(last && Relapses(d, t))))
      && (Silent(c.acts) ==> (Silent(after.acts) <==> d.next.Again?))
      && (after.verdict.Trying? <==> !last && (d.next.Again? || Relapses(d, t))) && !after.verdict.Raised?
  {
    var d := Decide(Streaming, t.upstream, last);
    EndedSends(c, lease, t, d, last, cfg.policy);
    EndingIs(d, t, last);
  }

  lemma FinalSends(taken: seq<Act>, d: Decision, t: Turn, last: bool)
    requires Silent(taken) && d.next.Final?
    ensures OneResponse(taken + HandOver(d, t, last).sent) <==> !(last && Relapses(d, t))
    ensures !Silent(taken + HandOver(d, t, last).sent)
  {
    var e, callback := HandOver(d, t, last), if d.next.via.Returning? then Works else t.callback;
    var first := Calls(d.next.status, d.next.chunks, callback);
    CallsAreOne(taken, d.next.status, d.next.chunks, callback);
    assert (taken + e.sent)[|taken|] == e.sent[0];
    if last && Relapses(d, t) {
      var report := Calls(502, [ErrorReport(t.callback.reason)], t.again);
      assert taken + e.sent == taken + first + report;
      assert (taken + first)[|taken|] == first[0];
      MoreAfter(taken + first, report);
    }
  }

  lemma GiveUpSends(c: Call, callback: Callback)
    requires c.verdict.Trying?
    ensures var after := GiveUp(c, Streaming, callback);
      && (AtMostOne(after.acts) <==> AtMostOne(c.acts) && (Silent(c.acts) || c.kept.None?))
      && (after.verdict.Raised? <==> c.kept.None?) && (after.verdict.Raised? ==> after.acts == c.acts)
      && !after.verdict.Trying? && (!after.verdict.Raised? ==> !Silent(after.acts))
  {
    if c.kept.Some? {
      var sent := Calls(c.kept.value.status, [c.kept.value.body], callback);
      assert (c.acts + sent)[|c.acts|] == sent[0];
      if Silent(c.acts) {
        CallsAreOne(c.acts, c.kept.value.status, [c.kept.value.body], callback);
      } else {
        MoreAfter(c.acts, sent);
      }
    }
  }

  /** What a turn adds: it may get an account, may relapse then, and may be the last. */
  ghost predicate Turned(c: Call, after: Call, taken: bool, relapses: bool, last: bool) {
    && (Silent(c.acts) ==> (AtMostOne(after.acts) <==> !(relapses && last)))
    && (!Silent(c.acts) ==> (AtMostOne(after.acts) <==> AtMostOne(c.acts) && !taken && c.kept.None?))
    && (Silent(c.acts) && after.verdict.Trying? ==> (Silent(after.acts) <==> !relapses))
    && (after.verdict.Trying? ==> taken && !last)
    && (after.verdict.Returned? || after.verdict.Interrupted? ==> !Silent(after.acts))
    && (after.verdict.Raised? ==> after.acts == c.acts)
  }

  lemma AttemptSends(c: Call, routeKey: Option<string>, t: Turn, k: nat, cfg: ProxyConfig)
    requires c.verdict.Trying?
    ensures var taken := Reserving(c.pool, Streaming, routeKey, t, k, cfg).1.Reserved?;
      Turned(
        c, Attempt(c, Streaming, routeKey, t, k, cfg), taken,
        taken && Relapses(Decide(Streaming, t.upstream, k >= cfg.maxRetries), t), k >= cfg.maxRetries)
  {
    var (st, r) := Reserving(c.pool, Streaming, routeKey, t, k, cfg);
    if r.Reserved? {
      UseSends(c.(pool := st), r.lease, t, k >= cfg.maxRetries, cfg);
    } else {
      GiveUpSends(c.(pool := st), t.callback);
    }
  }

  // ---------------------------------------------------------------- the whole call

  function Before(pool: PoolState, routeKey: Option<string>, turns: seq<Turn>, k: nat, cfg: ProxyConfig): Call
    requires k <= |turns|
  {
    Tried(pool, Streaming, routeKey, turns[..k], cfg)
  }

  /** Turn k is taken and gets an account. */
  predicate Takes(pool: PoolState, routeKey: Option<string>, turns: seq<Turn>, k: nat, cfg: ProxyConfig)
    requires k < |turns|
  {
    var c := Before(pool, routeKey, turns, k, cfg);
    c.verdict.Trying? && Reserving(c.pool, Streaming, routeKey, turns[k], k, cfg).1.Reserved?
  }

  /** Turn k is taken, gets an account, and ends in a callback broken in an inner handler. */
  predicate RelapsesAt(pool: PoolState, routeKey: Option<string>, turns: seq<Turn>, k: nat, cfg: ProxyConfig)
    requires k < |turns|
  {
    Takes(pool, routeKey, turns, k, cfg) && Relapses(Decide(Streaming, turns[k].upstream, k >= cfg.maxRetries),
      turns[k])
  }

  /** Turn k finds no account, and no rejected response to send instead. */
  predicate StopsAt(pool: PoolState, routeKey: Option<string>, turns: seq<Turn>, k: nat, cfg: ProxyConfig)
    requires k < |turns|
  {
    !Takes(pool, routeKey, turns, k, cfg) && Before(pool, routeKey, turns, k, cfg).kept.None?
  }

  predicate LastRelapses(pool: PoolState, routeKey: Option<string>, turns: seq<Turn>, cfg: ProxyConfig) {
    turns != [] && RelapsesAt(pool, routeKey, turns, |turns| - 1, cfg)
  }

  /** No turn that relapses is the last one allowed, and the turn after it, if there is one, stops. */
  predicate NothingFollows(pool: PoolState, routeKey: Option<string>, turns: seq<Turn>, cfg: ProxyConfig) {
    turns == [] ||
    (var k := |turns| - 1;
     && NothingFollows(pool, routeKey, turns[..k], cfg)
     && (RelapsesAt(pool, routeKey, turns, k, cfg) ==> k < cfg.maxRetries)
     && (LastRelapses(pool, routeKey, turns[..k], cfg) ==> StopsAt(pool, routeKey, turns, k, cfg)))
  }

  /**
   * What is known of a call after some turns: whether the last one relapsed, and whether no more followed one that
   * did.
   */
  ghost predicate Known(c: Call, relapsed: bool, clean: bool) {
    && (AtMostOne(c.acts) <==> clean)
    && (c.verdict.Trying? && clean ==> (Silent(c.acts) <==> !relapsed))
    && (c.verdict.Returned? || c.verdict.Interrupted? ==> !Silent(c.acts))
  }

  lemma KnownNext(c: Call, after: Call, relapsed: bool, clean: bool, taken: bool, relapses: bool, last: bool)
    requires Known(c, relapsed, clean) && (relapses ==> taken)
    requires if c.verdict.Trying? then Turned(c, after, taken, relapses, last) else after == c && !taken
    ensures Known(
      after, relapses, clean && !(relapses && last) && (relapsed && c.verdict.Trying? ==> !taken && c.kept.None?))
  {
  }

  /** A turn that ends the call has not relapsed, unless it was the last. */
  lemma RelapseGoesOn(pool: PoolState, routeKey: Option<string>, turns: seq<Turn>, cfg: ProxyConfig)
    requires LastRelapses(pool, routeKey, turns, cfg) && |turns| <= cfg.maxRetries
    ensures Tried(pool, Streaming, routeKey, turns, cfg).verdict.Trying?
  {
    var k := |turns| - 1;
    var c := Before(pool, routeKey, turns, k, cfg);
    RelapseTries(c, routeKey, turns[k], k, cfg);
  }

  lemma RelapseTries(c: Call, routeKey: Option<string>, t: Turn, k: nat, cfg: ProxyConfig)
    requires c.verdict.Trying? && k < cfg.maxRetries
    requires Reserving(c.pool, Streaming, routeKey, t, k, cfg).1.Reserved?
    requires Relapses(Decide(Streaming, t.upstream, false), t)
    ensures Attempt(c, Streaming, routeKey, t, k, cfg).verdict.Trying?
  {
    var (st, r) := Reserving(c.pool, Streaming, routeKey, t, k, cfg);
    UseSends(c.(pool := st), r.lease, t, false, cfg);
  }

  lemma TurnIs(pool: PoolState, routeKey: Option<string>, turns: seq<Turn>, k: nat, cfg: ProxyConfig)
    requires k + 1 == |turns|
    ensures var c, after := Before(pool, routeKey, turns, k, cfg), Tried(pool, Streaming, routeKey, turns, cfg);
      var taken, relapses := Takes(pool, routeKey, turns, k, cfg), RelapsesAt(pool, routeKey, turns, k, cfg);
      if c.verdict.Trying? then Turned(c, after, taken, relapses, k >= cfg.maxRetries) else after == c && !taken
  {
    var c := Before(pool, routeKey, turns, k, cfg);
    if c.verdict.Trying? {
      AttemptSends(c, routeKey, turns[k], k, cfg);
    }
  }

  lemma {:induction false} TriedSends(pool: PoolState, routeKey: Option<string>, turns: seq<Turn>, cfg: ProxyConfig)
    requires turns == [] || |turns| <= cfg.maxRetries + 1
    ensures Known(
      Tried(pool, Streaming, routeKey, turns, cfg), LastRelapses(pool, routeKey, turns, cfg),
      NothingFollows(pool, routeKey, turns, cfg))
  {
    if turns != [] {
      var k := |turns| - 1;
      TriedSends(pool, routeKey, turns[..k], cfg);
      TurnIs(pool, routeKey, turns, k, cfg);
      if LastRelapses(pool, routeKey, turns[..k], cfg) {
        RelapseGoesOn(pool, routeKey, turns[..k], cfg);
      }
      KnownNext(
        Before(pool, routeKey, turns, k, cfg), Tried(pool, Streaming, routeKey, turns, cfg),
        LastRelapses(pool, routeKey, turns[..k], cfg), NothingFollows(pool, routeKey, turns[..k], cfg),
        Takes(pool, routeKey, turns, k, cfg), RelapsesAt(pool, routeKey, turns, k, cfg), k >= cfg.maxRetries);
    }
  }

  /**
   * Exactly when a client gets at most one response, whatever the callbacks do: a callback that breaks in an inner
   * handler must be followed by nothing, so by a turn that finds no account and has no rejected response to send.
   */
  lemma SecondResponseExactly(
    pool: PoolState, size: nat, refusal: Callback, routeKey: Option<string>, turns: seq<Turn>, cfg: ProxyConfig)
    requires Complete(turns, cfg)
    ensures AtMostOne(Stream(pool, size, refusal, routeKey, turns, cfg).acts)
      <==> size > MAX_REQUEST_BYTES || NothingFollows(pool, routeKey, turns, cfg)
  {
    if size > MAX_REQUEST_BYTES {
      CallsAreOne([], 413, [FixedError], refusal);
      assert [] + Calls(413, [FixedError], refusal) == Stream(pool, size, refusal, routeKey, turns, cfg).acts;
    }
    TriedSends(pool, routeKey, turns, cfg);
  }

  predicate AllWork(turns: seq<Turn>) {
    forall i :: 0 <= i < |turns| ==> turns[i].callback.Works?
  }

  lemma WorkingNeverRelapses(pool: PoolState, routeKey: Option<string>, turns: seq<Turn>, k: nat, cfg: ProxyConfig)
    requires k < |turns| && turns[k].callback.Works?
    ensures !RelapsesAt(pool, routeKey, turns, k, cfg)
  {
  }

  lemma {:induction false} WorkingFollows(pool: PoolState, routeKey: Option<string>, turns: seq<Turn>, cfg: ProxyConfig)
    requires AllWork(turns)
    ensures NothingFollows(pool, routeKey, turns, cfg) && !LastRelapses(pool, routeKey, turns, cfg)
  {
    if turns != [] {
      var k := |turns| - 1;
      assert forall i :: 0 <= i < k ==> turns[..k][i] == turns[i];
      WorkingFollows(pool, routeKey, turns[..k], cfg);
      WorkingNeverRelapses(pool, routeKey, turns, k, cfg);
    }
  }

  lemma WorkingIsNotInterrupted(c: Call, routeKey: Option<string>, t: Turn, k: nat, cfg: ProxyConfig)
    requires c.verdict.Trying? && t.callback.Works?
    ensures !Attempt(c, Streaming, routeKey, t, k, cfg).verdict.Interrupted?
  {
  }

  lemma {:induction false} WorkingRaisesSilently(
    pool: PoolState, routeKey: Option<string>, turns: seq<Turn>, cfg: ProxyConfig)
    requires AllWork(turns) && (turns == [] || |turns| <= cfg.maxRetries + 1)
    ensures var c := Tried(pool, Streaming, routeKey, turns, cfg);
      && !c.verdict.Interrupted? && (c.verdict.Trying? || c.verdict.Raised? ==> Silent(c.acts))
      && (c.verdict.Trying? ==> turns == [] || |turns| <= cfg.maxRetries)
  {
    if turns != [] {
      var k := |turns| - 1;
      assert forall i :: 0 <= i < k ==> turns[..k][i] == turns[i];
      WorkingRaisesSilently(pool, routeKey, turns[..k], cfg);
      TurnIs(pool, routeKey, turns, k, cfg);
      WorkingNeverRelapses(pool, routeKey, turns, k, cfg);
      var c := Before(pool, routeKey, turns, k, cfg);
      if c.verdict.Trying? {
        WorkingIsNotInterrupted(c, routeKey, turns[k], k, cfg);
        assert Tried(pool, Streaming, routeKey, turns, cfg) == Attempt(c, Streaming, routeKey, turns[k], k, cfg);
      }
    }
  }

  /**
   * One response. With callbacks that work, a streamed call that returns has sent headers exactly once, before every
   * chunk, and touched no account afterwards; one that raises has sent nothing; and it does one or the other unless
   * it may take no turn.
   */
  lemma StreamSendsOneResponse(
    pool: PoolState, size: nat, routeKey: Option<string>, turns: seq<Turn>, cfg: ProxyConfig)
    requires Complete(turns, cfg) && AllWork(turns)
    ensures var c := Stream(pool, size, Works, routeKey, turns, cfg);
      && (c.verdict.Returned? ==> OneResponse(c.acts))
      && (!c.verdict.Returned? ==> Silent(c.acts))
      && (c.verdict.Trying? <==> cfg.maxRetries < 0 && size <= MAX_REQUEST_BYTES)
      && !c.verdict.Interrupted?
  {
    if size > MAX_REQUEST_BYTES {
      CallsAreOne([], 413, [FixedError], Works);
      assert [] + Calls(413, [FixedError], Works) == Stream(pool, size, Works, routeKey, turns, cfg).acts;
    } else {
      WorkingFollows(pool, routeKey, turns, cfg);
      TriedSends(pool, routeKey, turns, cfg);
      WorkingRaisesSilently(pool, routeKey, turns, cfg);
    }
  }

  lemma OnlyAccountIsTaken(usages: map<string, AccountUsage>, req: ReserveRequest, w: World)
    requires CapacityOf(usages, "a").Some? && req.routeKey.None?
    ensures var r := Reserve(EMPTY_POOL, PoolPolicy(30.0, 900.0, 86400.0), ["a"], usages, req, w).1;
      r.Reserved? && r.lease.id == 0 && r.lease.profile == "a"
  {
    var policy := PoolPolicy(30.0, 900.0, 86400.0);
    var pruned := Prune(EMPTY_POOL, policy, w);
    assert Candidates(pruned, ["a"][..0], usages, w) == (pruned, []);
    assert HealthOf(pruned, "a") == INITIAL_HEALTH;
    assert HealthOf(HealthAfterAuthChange(pruned, "a", w), "a") == INITIAL_HEALTH;
    assert Candidates(pruned, ["a"], usages, w).1 == [CandidateFor(pruned, "a", CapacityOf(usages, "a").value)];
  }

  /**
   * A second response. The one turn allowed cannot reach the server; the client is gone, so that sending the headers
   * of the 502 raises; the call takes that for a failure of the account, and sends the headers of another 502.
   */
  lemma BrokenHeadersAreSentAgain(usages: map<string, AccountUsage>)
    requires CapacityOf(usages, "a").Some?
    ensures var cfg := ProxyConfig(PoolPolicy(30.0, 900.0, 86400.0), 1, 0);
      var w := World(0.0, {}, map[]);
      var t := Turn(
        Some(Fetch(["a"], usages)), [], w, w, Unreachable("down"), Breaks(0, true, "closed"), [], w, [], w, Works, []);
      var c := Stream(EMPTY_POOL, 0, Works, None, [t], cfg);
      && Complete([t], cfg) && c.verdict.Returned?
      && c.acts == [Reserves(0, "a"), Opens("a"), Headers(502), Headers(502), Chunk(ErrorReport("closed"))]
  {
    var cfg := ProxyConfig(PoolPolicy(30.0, 900.0, 86400.0), 1, 0);
    var w := World(0.0, {}, map[]);
    var t := Turn(
      Some(Fetch(["a"], usages)), [], w, w, Unreachable("down"), Breaks(0, true, "closed"), [], w, [], w, Works, []);
    var c := Stream(EMPTY_POOL, 0, Works, None, [t], cfg);
    OnlyAccountIsTaken(usages, TurnRequest(Streaming, None, 0, cfg), w);
    assert Run(cfg.policy, EMPTY_POOL, []) == EMPTY_POOL;
    BrokenHeadersEnd(t);
    OneTurnOnly(t, cfg);
    OneTurnActs(t, cfg);
  }

  lemma OneTurnActs(t: Turn, cfg: ProxyConfig)
    requires cfg.maxRetries == 0 && Reserving(EMPTY_POOL, Streaming, None, t, 0, cfg).1.Reserved?
    ensures var lease := Reserving(EMPTY_POOL, Streaming, None, t, 0, cfg).1.lease;
      var d := Decide(Streaming, t.upstream, true);
      var after := Attempt(Call(EMPTY_POOL, [], None, Trying), Streaming, None, t, 0, cfg);
      && after.acts == Taking(lease, d.opens) + HandOver(d, t, true).sent
      && after.verdict == HandOver(d, t, true).verdict
  {
  }

  lemma OneTurnOnly(t: Turn, cfg: ProxyConfig)
    ensures Stream(EMPTY_POOL, 0, Works, None, [t], cfg)
      == Attempt(Call(EMPTY_POOL, [], None, Trying), Streaming, None, t, 0, cfg)
  {
    assert [t][..0] == [];
    assert Tried(EMPTY_POOL, Streaming, None, [], cfg) == Call(EMPTY_POOL, [], None, Trying);
  }

  lemma BrokenHeadersEnd(t: Turn)
    requires t.upstream.Unreachable? && t.callback == Breaks(0, true, "closed") && t.again.Works?
    ensures var d := Decide(Streaming, t.upstream, true);
      var e := HandOver(d, t, true);
      d.opens && e.verdict.Returned? && e.sent == [Headers(502), Headers(502), Chunk(ErrorReport("closed"))]
  {
    var report := [ErrorReport("closed")];
    assert Calls(502, [FixedError], t.callback) == [Headers(502)];
    assert Calls(502, report, Works) == [Headers(502), Chunk(report[0])];
  }
}
