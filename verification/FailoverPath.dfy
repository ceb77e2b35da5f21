/** Which accounts a retrying call visits, and what it leaves behind in their health. */
module FailoverPath {
  import opened Wrappers
  import opened AccountUsages
  import opened Pool
  import opened PoolFairness
  import opened PoolHealthRuns
  import opened Failover

  // ---------------------------------------------------------------- a failed account stays out

  /** No reservation may take the account before `until`, while its credential file reads as it does. */
  predicate Barred(h: PoolHealth, file: Option<string>, until: real) {
    match h.status
    case AuthExpired => h.fingerprint.None? || h.fingerprint == file
    case Disabled => true
    case Cooldown => h.cooldownUntil.Some? && h.cooldownUntil.value >= until
    case Healthy => false
  }

  /** The window of a call: credential files that do not change, and less time than the shortest cooldown. */
  datatype Window = Window(files: map<string, string>, start: real, until: real) {
    predicate Holds(w: World) {
      w.files == files && start <= w.now < until
    }

    function File(p: string): Option<string> {
      if p in files then Some(files[p]) else None
    }

    /** A fingerprint read in the window, or none. */
    predicate Current(p: string, fingerprint: Option<string>) {
      fingerprint.None? || fingerprint == File(p)
    }
  }

  predicate CallWindow(v: Window, policy: PoolPolicy) {
    policy.cooldownSeconds >= 0.0
    && v.until <= v.start + if policy.maxCooldownSeconds <= policy.cooldownSeconds
                            then policy.maxCooldownSeconds else policy.cooldownSeconds
  }

  /**
   * Another request's step in the window: neither a success nor credentials refused that are not the current ones.
   */
  predicate Quiet(v: Window, e: PoolEvent) {
    v.Holds(e.w) && !e.EvSuccess? && (e.EvFailure? && IsAuthKind(e.kind) ==> v.Current(e.profile, e.given))
  }

  predicate AllQuiet(v: Window, es: seq<PoolEvent>) {
    forall i :: 0 <= i < |es| ==> Quiet(v, es[i])
  }

  predicate QuietTurn(v: Window, t: Turn) {
    && AllQuiet(v, t.before) && AllQuiet(v, t.during) && AllQuiet(v, t.between) && AllQuiet(v, t.after)
    && v.Holds(t.reserving) && v.Holds(t.reading) && v.Holds(t.marking) && v.Holds(t.remarking)
  }

  /** Every delay outlasts the window. */
  lemma DelayOutlasts(v: Window, policy: PoolPolicy, k: nat)
    requires CallWindow(v, policy) && k > 0
    ensures v.start + BackoffDelay(policy, k) >= v.until
  {
    var factor := Pow2(if k - 1 < 5 then k - 1 else 5);
    assert policy.cooldownSeconds * factor >= policy.cooldownSeconds * 1.0;
  }

  /** A failure bars the account, unless it is of credentials that are no longer the ones in the file. */
  lemma FailureBars(
    st: PoolState, policy: PoolPolicy, p: string, kind: string, given: Option<string>, w: World, v: Window)
    requires CallWindow(v, policy) && v.Holds(w)
    ensures Barred(HealthOf(MarkFailure(st, policy, p, kind, given, w), p), v.File(p), v.until)
      <==> !IsAuthKind(kind) || v.Current(p, given)
  {
    var k := HealthOf(st, p).failureCount + 1;
    DelayOutlasts(v, policy, k);
    assert HealthOf(MarkFailure(st, policy, p, kind, given, w), p)
      == FailedHealth(policy, k, kind, if given.Some? then given else w.Fingerprint(p), w.now);
  }

  /** What brings the account back: its success, or a failure of credentials that are not the ones in its file. */
  predicate Unbars(v: Window, e: PoolEvent, p: string) {
    || (e.EvSuccess? && e.profile == p)
    || (e.EvFailure? && e.profile == p && IsAuthKind(e.kind) && !v.Current(p, e.given))
  }

  lemma StepKeepsBarred(policy: PoolPolicy, st: PoolState, e: PoolEvent, p: string, v: Window)
    requires CallWindow(v, policy) && v.Holds(e.w) && Barred(HealthOf(st, p), v.File(p), v.until)
    ensures Barred(HealthOf(Apply(policy, st, e), p), v.File(p), v.until) <==> !Unbars(v, e, p)
  {
    match e
    case EvReserve(profiles, usages, req, w) => HealthAfterReserve(st, policy, profiles, usages, req, w, p);
    case EvFailure(profile, kind, given, w) => FailureBars(st, policy, profile, kind, given, w, v);
    case _ =>
  }

  predicate AllHold(v: Window, es: seq<PoolEvent>) {
    forall i :: 0 <= i < |es| ==> v.Holds(es[i].w)
  }

  predicate NoneUnbars(v: Window, es: seq<PoolEvent>, p: string) {
    forall i :: 0 <= i < |es| ==> !Unbars(v, es[i], p)
  }

  /** The account is barred at every point of the run. */
  predicate BarredThroughout(policy: PoolPolicy, st: PoolState, es: seq<PoolEvent>, p: string, v: Window) {
    Barred(HealthOf(Run(policy, st, es), p), v.File(p), v.until)
    && (es != [] ==> BarredThroughout(policy, st, es[..|es| - 1], p, v))
  }

  /** Over any run in the window, exactly: the account stays barred if and only if no step brings it back. */
  lemma {:induction false} RunKeepsBarred(policy: PoolPolicy, st: PoolState, es: seq<PoolEvent>, p: string, v: Window)
    requires CallWindow(v, policy) && AllHold(v, es) && Barred(HealthOf(st, p), v.File(p), v.until)
    ensures BarredThroughout(policy, st, es, p, v) <==> NoneUnbars(v, es, p)
  {
    if es != [] {
      var front, e := es[..|es| - 1], es[|es| - 1];
      RunKeepsBarred(policy, st, front, p, v);
      assert NoneUnbars(v, es, p) <==> NoneUnbars(v, front, p) && !Unbars(v, e, p) by {
        assert es == front + [e];
      }
      if BarredThroughout(policy, st, front, p, v) {
        StepKeepsBarred(policy, Run(policy, st, front), e, p, v);
      }
    }
  }

  lemma QuietKeepsBarred(policy: PoolPolicy, st: PoolState, es: seq<PoolEvent>, p: string, v: Window)
    requires CallWindow(v, policy) && AllQuiet(v, es) && Barred(HealthOf(st, p), v.File(p), v.until)
    ensures Barred(HealthOf(Run(policy, st, es), p), v.File(p), v.until)
  {
    RunKeepsBarred(policy, st, es, p, v);
  }

  lemma BarredIsNotPicked(
    st: PoolState, policy: PoolPolicy, profiles: seq<string>, usages: map<string, AccountUsage>, req: ReserveRequest,
    w: World, p: string, v: Window)
    requires v.Holds(w) && Barred(HealthOf(st, p), v.File(p), v.until)
    ensures var r := Reserve(st, policy, profiles, usages, req, w).1; r.Reserved? ==> r.lease.profile != p
  {
    if Reserve(st, policy, profiles, usages, req, w).1.Reserved? {
      PickedWasEligible(st, policy, profiles, usages, req, w);
    }
  }

  // ---------------------------------------------------------------- the accounts of a call

  /** The accounts a call has taken, in order. */
  function Taken(acts: seq<Act>): seq<string> {
    if acts == [] then []
    else Taken(acts[..|acts| - 1]) + if acts[|acts| - 1].Reserves? then [acts[|acts| - 1].profile] else []
  }

  function Opened(acts: seq<Act>): nat {
    if acts == [] then 0 else Opened(acts[..|acts| - 1]) + if acts[|acts| - 1].Opens? then 1 else 0
  }

  lemma {:induction false} TakenConcat(a: seq<Act>, b: seq<Act>)
    ensures Taken(a + b) == Taken(a) + Taken(b) && Opened(a + b) == Opened(a) + Opened(b)
  {
    if b == [] {
      assert a + b == a;
    } else {
      TakenConcat(a, b[..|b| - 1]);
      assert (a + b)[..|a + b| - 1] == a + b[..|b| - 1];
    }
  }

  lemma {:induction false} NothingTaken(b: seq<Act>)
    requires forall i :: 0 <= i < |b| ==> !b[i].Reserves? && !b[i].Opens?
    ensures Taken(b) == [] && Opened(b) == 0
  {
    if b != [] {
      NothingTaken(b[..|b| - 1]);
    }
  }

  lemma SendingTakesNothing(acts: seq<Act>, sent: seq<Act>)
    requires Sends(sent)
    ensures Taken(acts + sent) == Taken(acts) && Opened(acts + sent) == Opened(acts)
  {
    TakenConcat(acts, sent);
    NothingTaken(sent);
  }

  predicate AllBarred(names: seq<string>, pool: PoolState, v: Window) {
    forall p :: p in names ==> Barred(HealthOf(pool, p), v.File(p), v.until)
  }

  predicate Distinct(names: seq<string>) {
    forall i, j :: 0 <= i < j < |names| ==> names[i] != names[j]
  }

  /** What the turns of a call keep, as long as it goes on; and at its end. */
  predicate OnNewGround(c: Call, v: Window) {
    && Distinct(Taken(c.acts)) && Opened(c.acts) <= |Taken(c.acts)|
    && (c.verdict.Trying? ==> AllBarred(Taken(c.acts), c.pool, v))
  }

  lemma OneTaken(lease: PoolLease, opens: bool)
    ensures var acts := Taking(lease, opens); Taken(acts) == [lease.profile] && Opened(acts) <= 1
  {
    var first := [Reserves(lease.id, lease.profile)];
    assert first[..0] == [];
    assert Taken(first) == [lease.profile] && Opened(first) == 0;
    if opens {
      assert Taking(lease, opens)[..1] == first;
    } else {
      assert Taking(lease, opens) == first;
    }
  }

  lemma EndedTakesOne(c: Call, lease: PoolLease, t: Turn, d: Decision, e: Ending, policy: PoolPolicy)
    requires Sends(e.sent)
    ensures var after := Ended(c, lease, t, d, e, policy);
      Taken(after.acts) == Taken(c.acts) + [lease.profile] && Opened(after.acts) <= Opened(c.acts) + 1
  {
    TakenConcat(c.acts, Taking(lease, d.opens) + e.sent);
    SendingTakesNothing(Taking(lease, d.opens), e.sent);
    OneTaken(lease, d.opens);
  }

  lemma UseTakesOne(c: Call, loop: Loop, lease: PoolLease, t: Turn, last: bool, cfg: ProxyConfig)
    ensures var after := Use(c, loop, lease, t, last, cfg);
      Taken(after.acts) == Taken(c.acts) + [lease.profile] && Opened(after.acts) <= Opened(c.acts) + 1
  {
    var d := Decide(loop, t.upstream, last);
    HandOverSends(d, t, last);
    EndedTakesOne(c, lease, t, d, HandOver(d, t, last), cfg.policy);
  }

  lemma GiveUpTakesNothing(c: Call, loop: Loop, callback: Callback)
    ensures Taken(GiveUp(c, loop, callback).acts) == Taken(c.acts)
      && Opened(GiveUp(c, loop, callback).acts) == Opened(c.acts)
  {
    if c.kept.Some? {
      SendingTakesNothing(c.acts, Calls(c.kept.value.status, [c.kept.value.body], Used(loop, callback)));
    }
  }

  /** What the last mark of a turn is. */
  function LastMark(e: Ending): Option<Mark> {
    if e.remark then Some(Fails("network")) else e.mark
  }

  /** A turn that goes on to another account has marked a failure of this one last. */
  lemma AgainAfterFailure(loop: Loop, t: Turn, last: bool)
    requires HandOver(Decide(loop, t.upstream, last), t, last).verdict.Trying?
    ensures var mark := LastMark(HandOver(Decide(loop, t.upstream, last), t, last));
      mark.Some? && mark.value.Fails? && !last
  {
  }

  lemma MarkBars(
    pool: PoolState, policy: PoolPolicy, mark: Option<Mark>, profile: string, reading: World, w: World, p: string,
      v: Window)
    requires CallWindow(v, policy) && v.Holds(reading) && v.Holds(w)
    requires mark.Some? ==> mark.value.Fails?
    requires (p == profile && mark.Some?) || Barred(HealthOf(pool, p), v.File(p), v.until)
    ensures Barred(HealthOf(Marked(pool, mark, profile, reading, w, policy), p), v.File(p), v.until)
  {
    if mark.Some? && p == profile {
      FailureBars(pool, policy, p, mark.value.kind, reading.Fingerprint(p), w, v);
    }
  }

  lemma SettledBars(pool: PoolState, e: Ending, lease: PoolLease, t: Turn, policy: PoolPolicy, p: string, v: Window)
    requires CallWindow(v, policy) && QuietTurn(v, t)
    requires (e.mark.Some? ==> e.mark.value.Fails?) && LastMark(e).Some?
    requires p == lease.profile || Barred(HealthOf(pool, p), v.File(p), v.until)
    ensures Barred(HealthOf(Settled(pool, e, lease, t, policy), p), v.File(p), v.until)
  {
    var mid := Run(policy, pool, t.during);
    var marked := Marked(mid, e.mark, lease.profile, t.reading, t.marking, policy);
    if p != lease.profile {
      QuietKeepsBarred(policy, pool, t.during, p, v);
    }
    if p != lease.profile || e.mark.Some? {
      MarkBars(mid, policy, e.mark, lease.profile, t.reading, t.marking, p, v);
    }
    if e.remark {
      if p != lease.profile {
        QuietKeepsBarred(policy, marked, t.between, p, v);
      }
      MarkBars(
        Run(policy, marked, t.between), policy, Some(Fails("network")), lease.profile, t.reading, t.remarking, p, v);
    }
    QuietKeepsBarred(policy, AfterMarks(pool, e, lease.profile, t, policy), t.after, p, v);
  }

  lemma ReservingKeepsBarred(
    pool: PoolState, loop: Loop, routeKey: Option<string>, t: Turn, k: nat, cfg: ProxyConfig, p: string, v: Window)
    requires CallWindow(v, cfg.policy) && QuietTurn(v, t) && Barred(HealthOf(pool, p), v.File(p), v.until)
    ensures var (after, r) := Reserving(pool, loop, routeKey, t, k, cfg);
      Barred(HealthOf(after, p), v.File(p), v.until) && (r.Reserved? ==> r.lease.profile != p)
  {
    var st := Run(cfg.policy, pool, t.before);
    QuietKeepsBarred(cfg.policy, pool, t.before, p, v);
    if t.fetch.Some? {
      var f, req := t.fetch.value, TurnRequest(loop, routeKey, k, cfg);
      StepKeepsBarred(cfg.policy, st, EvReserve(f.profiles, f.usages, req, t.reserving), p, v);
      BarredIsNotPicked(st, cfg.policy, f.profiles, f.usages, req, t.reserving, p, v);
    }
  }

  lemma UseBars(c: Call, loop: Loop, lease: PoolLease, t: Turn, last: bool, cfg: ProxyConfig, p: string, v: Window)
    requires CallWindow(v, cfg.policy) && QuietTurn(v, t) && Use(c, loop, lease, t, last, cfg).verdict.Trying?
    requires p == lease.profile || Barred(HealthOf(c.pool, p), v.File(p), v.until)
    ensures Barred(HealthOf(Use(c, loop, lease, t, last, cfg).pool, p), v.File(p), v.until)
  {
    AgainAfterFailure(loop, t, last);
    SettledBars(c.pool, HandOver(Decide(loop, t.upstream, last), t, last), lease, t, cfg.policy, p, v);
  }

  lemma UseStaysOnNewGround(c: Call, loop: Loop, lease: PoolLease, t: Turn, last: bool, cfg: ProxyConfig, v: Window)
    requires CallWindow(v, cfg.policy) && QuietTurn(v, t) && c.verdict.Trying? && OnNewGround(c, v)
    requires lease.profile !in Taken(c.acts)
    ensures OnNewGround(Use(c, loop, lease, t, last, cfg), v)
  {
    var after := Use(c, loop, lease, t, last, cfg);
    UseTakesOne(c, loop, lease, t, last, cfg);
    if after.verdict.Trying? {
      forall p | p in Taken(after.acts) ensures Barred(HealthOf(after.pool, p), v.File(p), v.until) {
        UseBars(c, loop, lease, t, last, cfg, p, v);
      }
    }
  }

  lemma AttemptStaysOnNewGround(
    c: Call, loop: Loop, routeKey: Option<string>, t: Turn, k: nat, cfg: ProxyConfig, v: Window)
    requires CallWindow(v, cfg.policy) && QuietTurn(v, t) && c.verdict.Trying? && OnNewGround(c, v)
    ensures OnNewGround(Attempt(c, loop, routeKey, t, k, cfg), v)
  {
    var (pool, r) := Reserving(c.pool, loop, routeKey, t, k, cfg);
    var c0 := c.(pool := pool);
    forall p | p in Taken(c.acts)
      ensures Barred(HealthOf(pool, p), v.File(p), v.until) && (r.Reserved? ==> r.lease.profile != p)
    {
      ReservingKeepsBarred(c.pool, loop, routeKey, t, k, cfg, p, v);
    }
    if r.Reserved? {
      UseStaysOnNewGround(c0, loop, r.lease, t, k >= cfg.maxRetries, cfg, v);
    } else {
      GiveUpTakesNothing(c0, loop, t.callback);
    }
  }

  predicate QuietTurns(v: Window, turns: seq<Turn>) {
    forall i :: 0 <= i < |turns| ==> QuietTurn(v, turns[i])
  }

  lemma {:induction false} TriedStaysOnNewGround(
    pool: PoolState, loop: Loop, routeKey: Option<string>, turns: seq<Turn>, cfg: ProxyConfig, v: Window)
    requires CallWindow(v, cfg.policy) && QuietTurns(v, turns)
    ensures OnNewGround(Tried(pool, loop, routeKey, turns, cfg), v)
  {
    if turns != [] {
      var k := |turns| - 1;
      TriedStaysOnNewGround(pool, loop, routeKey, turns[..k], cfg, v);
      var c := Tried(pool, loop, routeKey, turns[..k], cfg);
      if c.verdict.Trying? {
        AttemptStaysOnNewGround(c, loop, routeKey, turns[k], k, cfg, v);
      }
    }
  }

  // ---------------------------------------------------------------- how many

  lemma {:induction false} DistinctFit(names: seq<string>, accounts: set<string>)
    requires Distinct(names) && forall p :: p in names ==> p in accounts
    ensures |names| <= |accounts|
  {
    if names != [] {
      var front, last := names[..|names| - 1], names[|names| - 1];
      DistinctFit(front, accounts - {last});
    }
  }

  /** Every turn offers accounts of this set. */
  predicate Offers(turns: seq<Turn>, accounts: set<string>) {
    forall i :: 0 <= i < |turns| && turns[i].fetch.Some? ==> AllIn(turns[i].fetch.value.profiles, accounts)
  }

  predicate AllIn(names: seq<string>, accounts: set<string>) {
    forall p :: p in names ==> p in accounts
  }

  lemma AttemptTakes(
    c: Call, loop: Loop, routeKey: Option<string>, t: Turn, k: nat, cfg: ProxyConfig, accounts: set<string>)
    requires t.fetch.Some? ==> AllIn(t.fetch.value.profiles, accounts)
    requires AllIn(Taken(c.acts), accounts)
    ensures var after := Taken(Attempt(c, loop, routeKey, t, k, cfg).acts);
      AllIn(after, accounts) && |after| <= |Taken(c.acts)| + 1
  {
    var (pool, r) := Reserving(c.pool, loop, routeKey, t, k, cfg);
    var c0 := c.(pool := pool);
    if r.Reserved? {
      var f := t.fetch.value;
      ReserveGrants(
        Run(cfg.policy, c.pool, t.before), cfg.policy, f.profiles, f.usages, TurnRequest(loop, routeKey, k, cfg),
          t.reserving);
      UseTakesOne(c0, loop, r.lease, t, k >= cfg.maxRetries, cfg);
    } else {
      GiveUpTakesNothing(c0, loop, t.callback);
    }
  }

  ghost predicate TakesFew(c: Call, n: nat, accounts: set<string>) {
    |Taken(c.acts)| <= n && AllIn(Taken(c.acts), accounts)
  }

  lemma TurnTakes(
    pool: PoolState, loop: Loop, routeKey: Option<string>, turns: seq<Turn>, k: nat, cfg: ProxyConfig,
      accounts: set<string>)
    requires k + 1 == |turns| && Offers(turns, accounts)
    requires TakesFew(Tried(pool, loop, routeKey, turns[..k], cfg), k, accounts)
    ensures TakesFew(Tried(pool, loop, routeKey, turns, cfg), k + 1, accounts)
  {
    var c := Tried(pool, loop, routeKey, turns[..k], cfg);
    if c.verdict.Trying? {
      AttemptTakes(c, loop, routeKey, turns[k], k, cfg, accounts);
    }
  }

  lemma {:induction false} TriedTakes(
    pool: PoolState, loop: Loop, routeKey: Option<string>, turns: seq<Turn>, cfg: ProxyConfig, accounts: set<string>)
    requires Offers(turns, accounts)
    ensures TakesFew(Tried(pool, loop, routeKey, turns, cfg), |turns|, accounts)
  {
    if turns != [] {
      var k := |turns| - 1;
      assert forall i :: 0 <= i < k ==> turns[..k][i] == turns[i];
      TriedTakes(pool, loop, routeKey, turns[..k], cfg, accounts);
      TurnTakes(pool, loop, routeKey, turns, k, cfg, accounts);
    }
  }

  /**
   * Failover never revisits an account. In a call whose window is shorter than the shortest cooldown, with unchanged
   * credential files and no success marked by another request, the accounts taken are pairwise distinct; so the
   * requests opened are at most the turns allowed and at most the accounts offered.
   */
  lemma NeverRevisits(
    pool: PoolState, loop: Loop, routeKey: Option<string>, turns: seq<Turn>, cfg: ProxyConfig, v: Window,
    accounts: set<string>)
    requires Complete(turns, cfg) && Offers(turns, accounts)
    requires CallWindow(v, cfg.policy) && QuietTurns(v, turns)
    ensures var acts := Tried(pool, loop, routeKey, turns, cfg).acts;
      && Distinct(Taken(acts))
      && Opened(acts) <= |Taken(acts)| <= |accounts|
      && Opened(acts) <= (if cfg.maxRetries < 0 then 0 else cfg.maxRetries + 1)
  {
    TriedStaysOnNewGround(pool, loop, routeKey, turns, cfg, v);
    TriedTakes(pool, loop, routeKey, turns, cfg, accounts);
    DistinctFit(Taken(Tried(pool, loop, routeKey, turns, cfg).acts), accounts);
  }

  // ---------------------------------------------------------------- what the two loops mark

  /** The whole read of a response breaks exactly when reading it in chunks does. */
  predicate SameReading(up: Upstream) {
    up.Answered? ==> up.breaks == up.body.None?
  }

  /**
   * The two loops agree on the health they record, as long as the callbacks work, but for one case: an answer with a
   * retryable status that is read to its end on the last turn counts as a success of the account when streamed, and
   * as a failure when listing models.
   */
  lemma LoopsMarkAlike(t: Turn, last: bool)
    requires SameReading(t.upstream) && t.callback.Works?
    ensures var up := t.upstream;
      LastMark(HandOver(Decide(Streaming, up, last), t, last)) == LastMark(HandOver(Decide(Models, up, last), t, last))
      <==> !(up.Answered? && up.status in RETRYABLE && last && !up.breaks)
  {
  }

  lemma MarkTells(pool: PoolState, mark: Mark, profile: string, reading: World, w: World, policy: PoolPolicy)
    ensures Clean(HealthOf(Marked(pool, Some(mark), profile, reading, w, policy), profile)) <==> mark.Succeeds?
  {
  }

  lemma LastRejectionMarks(loop: Loop, t: Turn)
    requires t.upstream.Answered? && t.upstream.status in RETRYABLE && !t.upstream.breaks && SameReading(t.upstream)
    requires t.callback.Breaks? ==> t.callback.caught
    ensures var e := HandOver(Decide(loop, t.upstream, true), t, true);
      && !e.remark && e.mark.Some?
      && (e.mark.value.Succeeds? <==> loop.Streaming? && !BreaksIn(t.callback, AllBytes(t.upstream.chunks)))
  {
  }

  lemma AttemptSettles(c: Call, loop: Loop, routeKey: Option<string>, t: Turn, k: nat, cfg: ProxyConfig)
    requires Reserving(c.pool, loop, routeKey, t, k, cfg).1.Reserved?
    ensures var (pool, r) := Reserving(c.pool, loop, routeKey, t, k, cfg);
      var last := k >= cfg.maxRetries;
      Attempt(c, loop, routeKey, t, k, cfg).pool
      == Settled(pool, HandOver(Decide(loop, t.upstream, last), t, last), r.lease, t, cfg.policy)
  {
  }

  /**
   * What that means for the account: healthy with a clean record after the one loop, failed after the other. When
   * streamed, it is failed too if a callback breaks, with an error that the loop catches.
   */
  lemma LastRejectionIsRecorded(c: Call, loop: Loop, routeKey: Option<string>, t: Turn, k: nat, cfg: ProxyConfig)
    requires Reserving(c.pool, loop, routeKey, t, k, cfg).1.Reserved? && k >= cfg.maxRetries && t.after == []
    requires t.upstream.Answered? && t.upstream.status in RETRYABLE && !t.upstream.breaks && SameReading(t.upstream)
    requires t.callback.Breaks? ==> t.callback.caught
    ensures var p := Reserving(c.pool, loop, routeKey, t, k, cfg).1.lease.profile;
      Clean(HealthOf(Attempt(c, loop, routeKey, t, k, cfg).pool, p))
      <==> loop.Streaming? && !BreaksIn(t.callback, AllBytes(t.upstream.chunks))
  {
    var (pool, r) := Reserving(c.pool, loop, routeKey, t, k, cfg);
    var e := HandOver(Decide(loop, t.upstream, true), t, true);
    LastRejectionMarks(loop, t);
    AttemptSettles(c, loop, routeKey, t, k, cfg);
    MarkTells(Run(cfg.policy, pool, t.during), e.mark.value, r.lease.profile, t.reading, t.marking, cfg.policy);
    assert Run(cfg.policy, AfterMarks(pool, e, r.lease.profile, t, cfg.policy), t.after)
      == AfterMarks(pool, e, r.lease.profile, t, cfg.policy);
  }
}
