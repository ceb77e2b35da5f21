/**
 * The health machine of the pool over whole runs: exponential back-off after failures, and accounts with
 * expired credentials staying out until their file changes.
 */
module PoolHealthRuns {
  import opened Wrappers
  import opened AccountUsages
  import opened Pool
  import opened PoolFairness

  // ---------------------------------------------------------------- one step, one account

  /** What a reservation does to the health of one account. */
  lemma HealthAfterReserve(
    st: PoolState, policy: PoolPolicy, profiles: seq<string>, usages: map<string, AccountUsage>,
    req: ReserveRequest, w: World, p: string)
    ensures var (after, r) := Reserve(st, policy, profiles, usages, req, w);
      var pruned := PrunedHealth(HealthOf(st, p), w.now);
      HealthOf(after, p) ==
        if !r.Reserved? then HealthOf(st, p)
        else if p in profiles then RecoveredHealth(pruned, w.Fingerprint(p), w.now)
        else pruned
  {
    CandidatesAre(Prune(st, policy, w), profiles, usages, w);
  }

  lemma PickedWasEligible(
    st: PoolState, policy: PoolPolicy, profiles: seq<string>, usages: map<string, AccountUsage>,
    req: ReserveRequest, w: World)
    requires Reserve(st, policy, profiles, usages, req, w).1.Reserved?
    ensures var p := Reserve(st, policy, profiles, usages, req, w).1.lease.profile;
      HealthEligible(RecoveredHealth(PrunedHealth(HealthOf(st, p), w.now), w.Fingerprint(p), w.now), w.now)
  {
    ReserveGrants(st, policy, profiles, usages, req, w);
  }

  // ---------------------------------------------------------------- back-off

  predicate CountsAsFailure(e: PoolEvent, p: string) {
    e.EvFailure? && e.profile == p && !IsAuthKind(e.kind)
  }

  predicate EndsStreak(e: PoolEvent, p: string) {
    (e.EvSuccess? && e.profile == p) || (e.EvFailure? && e.profile == p && IsAuthKind(e.kind))
  }

  /** The number of failures of p since its last success or authentication failure. */
  function Streak(es: seq<PoolEvent>, p: string): nat {
    if es == [] || EndsStreak(es[|es| - 1], p) then 0
    else Streak(es[..|es| - 1], p) + if CountsAsFailure(es[|es| - 1], p) then 1 else 0
  }

  function LastFailure(es: seq<PoolEvent>, p: string): real
    requires Streak(es, p) > 0
  {
    if CountsAsFailure(es[|es| - 1], p) then es[|es| - 1].w.now else LastFailure(es[..|es| - 1], p)
  }

  lemma {:induction false} Pow2Grows(m: nat, n: nat)
    requires m <= n
    ensures Pow2(m) <= Pow2(n)
  {
    if m < n {
      Pow2Grows(m, n - 1);
    }
  }

  /**
   * The wait promised after the k-th failure in a row: the base after the first, twice as long each time up to the
   * sixth, and never more than the maximum.
   */
  function Wait(policy: PoolPolicy, k: nat): real
    requires k > 0
  {
    var wait := policy.cooldownSeconds * [1.0, 2.0, 4.0, 8.0, 16.0, 32.0][if k <= 6 then k - 1 else 5];
    if policy.maxCooldownSeconds <= wait then policy.maxCooldownSeconds else wait
  }

  lemma DelayIsWait(policy: PoolPolicy, k: nat)
    requires k > 0
    ensures BackoffDelay(policy, k) == Wait(policy, k)
  {
    assert Pow2(0) == 1.0 && Pow2(1) == 2.0 && Pow2(2) == 4.0 && Pow2(3) == 8.0;
    assert Pow2(4) == 16.0 && Pow2(5) == 32.0;
  }

  /** How long a failure that is not about credentials keeps the account out. */
  function WaitAfter(
    st: PoolState, policy: PoolPolicy, p: string, kind: string, given: Option<string>, w: World): Option<real>
  {
    var h := HealthOf(MarkFailure(st, policy, p, kind, given, w), p);
    if h.status == Cooldown && h.cooldownUntil.Some? then Some(h.cooldownUntil.value - w.now) else None
  }

  function AtMost(limit: real, x: real): real {
    if x <= limit then x else limit
  }

  /**
   * The waits themselves: the base after a first failure, doubled by each further one up to the sixth, the same from
   * then on, and never more than the maximum.
   */
  lemma WaitsDouble(
    policy: PoolPolicy, st: PoolState, next: PoolState, p: string, kind: string, given: Option<string>, w: World,
    later: World)
    requires policy.cooldownSeconds >= 0.0 && policy.maxCooldownSeconds >= 0.0
    requires !IsAuthKind(kind) && kind != "disabled"
    requires HealthOf(next, p).failureCount == HealthOf(st, p).failureCount + 1
    ensures var k := HealthOf(st, p).failureCount + 1;
      var d, d' := WaitAfter(st, policy, p, kind, given, w), WaitAfter(next, policy, p, kind, given, later);
      && d.Some? && d'.Some?
      && (k == 1 ==> d.value == AtMost(policy.maxCooldownSeconds, policy.cooldownSeconds))
      && d'.value == if k < 6 then AtMost(policy.maxCooldownSeconds, 2.0 * d.value) else d.value
  {
    var k := HealthOf(st, p).failureCount + 1;
    DelayIsWait(policy, k);
    DelayIsWait(policy, k + 1);
  }

  /** The delay never decreases with the number of failures, and never exceeds the cap. */
  lemma WaitsGrow(policy: PoolPolicy, j: nat, k: nat)
    requires policy.cooldownSeconds >= 0.0 && 0 < j <= k
    ensures Wait(policy, j) <= Wait(policy, k) <= policy.maxCooldownSeconds
  {
    var m, n := if j - 1 < 5 then j - 1 else 5, if k - 1 < 5 then k - 1 else 5;
    Pow2Grows(m, n);
    DelayIsWait(policy, j);
    DelayIsWait(policy, k);
    assert policy.cooldownSeconds * (Pow2(n) - Pow2(m)) >= 0.0;
  }

  // ---------------------------------------------------------------- the record of an account

  /** Out for as long as its failures in a row make it. */
  predicate Rests(h: PoolHealth, before: PoolHealth, now: real, policy: PoolPolicy) {
    && h.status == Cooldown && h.failureCount == before.failureCount + 1
    && h.cooldownUntil == Some(now + Wait(policy, h.failureCount))
  }

  /** Out until its credential file is another. */
  predicate Expires(h: PoolHealth, file: Option<string>) {
    h.status == AuthExpired && h.fingerprint == file
  }

  predicate Clean(h: PoolHealth) {
    h.status == Healthy && h.failureCount == 0 && h.cooldownUntil.None?
  }

  ghost predicate OthersKeep(after: PoolState, before: PoolState, p: string) {
    forall q :: q != p ==> HealthOf(after, q) == HealthOf(before, q)
  }

  /** The account's credentials were refused, and its file holds others now. */
  predicate Returns(h: PoolHealth, file: Option<string>) {
    h.status == AuthExpired && h.fingerprint.Some? && file.Some? && file != h.fingerprint
  }

  /**
   * What a granted request does to the record of any account: a wait that is over ends, the failures still counting;
   * and a listed account whose credentials were refused starts anew with another file, or is tied to the file it has.
   */
  lemma ReserveMakes(
    st: PoolState, policy: PoolPolicy, profiles: seq<string>, usages: map<string, AccountUsage>, req: ReserveRequest,
    w: World, p: string)
    ensures var (after, r) := Reserve(st, policy, profiles, usages, req, w);
      var h, h', file := HealthOf(st, p), HealthOf(after, p), w.Fingerprint(p);
      if !r.Reserved? then h' == h
      else if h.status == Cooldown && h.cooldownUntil.Some? && h.cooldownUntil.value <= w.now then
        h' == h.(status := Healthy, cooldownUntil := None, updatedAt := w.now)
      else if p in profiles && Returns(h, file) then Clean(h') && h'.fingerprint == file
      else if p in profiles && h.status == AuthExpired && h.fingerprint.None? then h' == h.(fingerprint := file)
      else h' == h
  {
    HealthAfterReserve(st, policy, profiles, usages, req, w, p);
  }

  /** What a failure does, by its kind; nothing but the account's record changes. */
  lemma FailureMakes(
    st: PoolState, policy: PoolPolicy, p: string, kind: string, given: Option<string>, w: World)
    ensures var after := MarkFailure(st, policy, p, kind, given, w);
      var h, file := HealthOf(after, p), if given.Some? then given else w.Fingerprint(p);
      && OthersKeep(after, st, p) && after == st.(health := after.health)
      && h.failureCount == HealthOf(st, p).failureCount + 1 && h.fingerprint == file
      && (if kind in ["401", "403", "auth"] then Expires(h, file)
          else if kind == "disabled" then h.status == Disabled
          else Rests(h, HealthOf(st, p), w.now, policy))
  {
    DelayIsWait(policy, HealthOf(st, p).failureCount + 1);
  }

  /** Who may be picked, by the record as it is in the file. */
  lemma EligibleIs(st: PoolState, policy: PoolPolicy, usages: map<string, AccountUsage>, w: World, p: string)
    ensures var h := HealthOf(st, p);
      Eligible(Prune(st, policy, w), usages, w, p) <==>
        CapacityOf(usages, p).Some?
        && match h.status
           case Healthy => true
           case Disabled => false
           case Cooldown => h.cooldownUntil.None? || h.cooldownUntil.value <= w.now
           case AuthExpired => Returns(h, w.Fingerprint(p))
  {
    assert HealthOf(Prune(st, policy, w), p) == PrunedHealth(HealthOf(st, p), w.now);
  }

  /** What a success does; an account that comes back counts as selected now, if it has never been. */
  lemma SuccessMakes(st: PoolState, policy: PoolPolicy, p: string, w: World)
    ensures var after := MarkSuccess(st, p, w);
      && OthersKeep(after, st, p) && Clean(HealthOf(after, p)) && HealthOf(after, p).fingerprint == w.Fingerprint(p)
      && after == st.(health := after.health, selectedAt := after.selectedAt)
      && (forall q :: q in after.selectedAt <==>
            q in st.selectedAt || (q == p && HealthOf(st, p).status != Healthy))
      && (forall q :: q in after.selectedAt ==>
            after.selectedAt[q] == if q in st.selectedAt then st.selectedAt[q] else w.now)
  {
  }

  /** Between failures the account is cooling down, disabled, or its delay is over. */
  predicate CoolingUntil(h: PoolHealth, k: nat, until: real, now: real) {
    && h.failureCount >= k
    && match h.status
       case AuthExpired => false
       case Disabled => true
       case Cooldown => h.cooldownUntil.Some? && h.cooldownUntil.value >= until
       case Healthy => now >= until
  }

  /** A failure starts the k-th delay or a longer one. */
  lemma FailureCools(
    policy: PoolPolicy, st: PoolState, p: string, kind: string, given: Option<string>, w: World, k: nat)
    requires policy.cooldownSeconds >= 0.0 && !IsAuthKind(kind) && 0 < k <= HealthOf(st, p).failureCount + 1
    ensures CoolingUntil(HealthOf(MarkFailure(st, policy, p, kind, given, w), p), k, w.now + Wait(policy, k),
      w.now)
  {
    WaitsGrow(policy, k, HealthOf(st, p).failureCount + 1);
    DelayIsWait(policy, HealthOf(st, p).failureCount + 1);
  }

  /** Any other step leaves the account cooling. */
  lemma StaysCooling(policy: PoolPolicy, st: PoolState, e: PoolEvent, p: string, k: nat, until: real, now: real)
    requires CoolingUntil(HealthOf(st, p), k, until, now) && now <= e.w.now && !EndsStreak(e, p)
      && !CountsAsFailure(e, p)
    ensures CoolingUntil(HealthOf(Apply(policy, st, e), p), k, until, e.w.now)
  {
    if e.EvReserve? {
      HealthAfterReserve(st, policy, e.profiles, e.usages, e.req, e.w, p);
    }
  }

  lemma {:induction false} BackoffInvariant(policy: PoolPolicy, st: PoolState, es: seq<PoolEvent>, p: string)
    requires policy.cooldownSeconds >= 0.0 && Monotone(es) && Streak(es, p) > 0
    ensures var k := Streak(es, p);
      CoolingUntil(HealthOf(Run(policy, st, es), p), k, LastFailure(es, p) + Wait(policy, k),
        es[|es| - 1].w.now)
  {
    var front, e, k := es[..|es| - 1], es[|es| - 1], Streak(es, p);
    var before := Run(policy, st, front);
    if Streak(front, p) > 0 {
      BackoffInvariant(policy, st, front, p);
    }
    if CountsAsFailure(e, p) {
      FailureCools(policy, before, p, e.kind, e.given, e.w, k);
    } else {
      assert front[|front| - 1] == es[|es| - 2];
      StaysCooling(policy, before, e, p, k, LastFailure(es, p) + Wait(policy, k), front[|front| - 1].w.now);
    }
  }

  /**
   * After k failures in a row no reservation picks the account before the k-th delay since the last of them
   * is over, whatever other steps, reservations and prunes come between.
   */
  lemma NoReserveDuringBackoff(policy: PoolPolicy, st: PoolState, es: seq<PoolEvent>, p: string, e: PoolEvent)
    requires policy.cooldownSeconds >= 0.0 && Monotone(es + [e]) && Streak(es, p) > 0 && e.EvReserve?
    ensures var r := Reserve(Run(policy, st, es), policy, e.profiles, e.usages, e.req, e.w).1;
      r.Reserved? && r.lease.profile == p ==> e.w.now >= LastFailure(es, p) + Wait(policy, Streak(es, p))
  {
    var before := Run(policy, st, es);
    assert (es + [e])[|es|] == e;
    assert forall i :: 0 <= i < |es| ==> (es + [e])[i] == es[i];
    BackoffInvariant(policy, st, es, p);
    var r := Reserve(before, policy, e.profiles, e.usages, e.req, e.w).1;
    if r.Reserved? && r.lease.profile == p {
      PickedWasEligible(before, policy, e.profiles, e.usages, e.req, e.w);
    }
  }

  /**
   * The delay is also exact: right after a failure that is not about credentials, the account is out until then and
   * no longer.
   */
  lemma BackoffIsExact(
    policy: PoolPolicy, st: PoolState, p: string, kind: string, given: Option<string>, w: World,
    usages: map<string, AccountUsage>, later: World)
    requires !IsAuthKind(kind) && kind != "disabled" && CapacityOf(usages, p).Some?
    ensures var failed := MarkFailure(st, policy, p, kind, given, w);
      var back := w.now + Wait(policy, HealthOf(st, p).failureCount + 1);
      Eligible(Prune(failed, policy, later), usages, later, p) <==> later.now >= back
  {
    var failed := MarkFailure(st, policy, p, kind, given, w);
    DelayIsWait(policy, HealthOf(st, p).failureCount + 1);
    assert HealthOf(Prune(failed, policy, later), p) == PrunedHealth(HealthOf(failed, p), later.now);
  }

  /** No credentials of p are refused along the run, and it is not disabled. */
  predicate OnlyPasses(es: seq<PoolEvent>, p: string) {
    forall i :: 0 <= i < |es| && es[i].EvFailure? && es[i].profile == p ==>
      !IsAuthKind(es[i].kind) && es[i].kind != "disabled"
  }

  /** After k failures in a row: cooling down until the wait is over, or through with it. */
  predicate WaitsUntil(h: PoolHealth, k: nat, until: real, now: real) {
    h.failureCount == k && match h.status
    case Healthy => k == 0 || now >= until
    case Cooldown => k > 0 && h.cooldownUntil == Some(until)
    case _ => false
  }

  function WaitEnds(policy: PoolPolicy, es: seq<PoolEvent>, p: string): real {
    if Streak(es, p) == 0 then 0.0 else LastFailure(es, p) + Wait(policy, Streak(es, p))
  }

  lemma StepWaits(policy: PoolPolicy, st: PoolState, e: PoolEvent, p: string, k: nat, until: real, now: real)
    requires WaitsUntil(HealthOf(st, p), k, until, now) && now <= e.w.now
    requires e.EvFailure? && e.profile == p ==> !IsAuthKind(e.kind) && e.kind != "disabled"
    ensures var h := HealthOf(Apply(policy, st, e), p);
      if e.EvSuccess? && e.profile == p then WaitsUntil(h, 0, 0.0, e.w.now)
      else if e.EvFailure? && e.profile == p then WaitsUntil(h, k + 1, e.w.now + Wait(policy, k + 1), e.w.now)
      else WaitsUntil(h, k, until, e.w.now)
  {
    if e.EvReserve? {
      HealthAfterReserve(st, policy, e.profiles, e.usages, e.req, e.w, p);
    }
    DelayIsWait(policy, k + 1);
  }

  lemma {:induction false} RunWaits(policy: PoolPolicy, st: PoolState, es: seq<PoolEvent>, p: string)
    requires Monotone(es) && OnlyPasses(es, p) && es != []
    requires HealthOf(st, p).status == Healthy && HealthOf(st, p).failureCount == 0
    ensures WaitsUntil(
      HealthOf(Run(policy, st, es), p), Streak(es, p), WaitEnds(policy, es, p), es[|es| - 1].w.now)
  {
    var front, e := es[..|es| - 1], es[|es| - 1];
    assert forall i :: 0 <= i < |front| ==> front[i] == es[i];
    var before := Run(policy, st, front);
    StreakNext(policy, es, p);
    if front == [] {
      StepWaits(policy, before, e, p, 0, 0.0, e.w.now);
    } else {
      RunWaits(policy, st, front, p);
      StepWaits(policy, before, e, p, Streak(front, p), WaitEnds(policy, front, p), front[|front| - 1].w.now);
    }
  }

  lemma StreakNext(policy: PoolPolicy, es: seq<PoolEvent>, p: string)
    requires es != [] && OnlyPasses(es, p)
    ensures var front, e, k := es[..|es| - 1], es[|es| - 1], Streak(es, p);
      if e.EvSuccess? && e.profile == p then k == 0 && WaitEnds(policy, es, p) == 0.0
      else if e.EvFailure? && e.profile == p then
        k == Streak(front, p) + 1 && WaitEnds(policy, es, p) == e.w.now + Wait(policy, k)
      else k == Streak(front, p) && WaitEnds(policy, es, p) == WaitEnds(policy, front, p)
  {
  }

  /**
   * Back-off over runs, exactly: after k passing failures in a row of an account with a clean record, and any other
   * steps in between, the account is eligible again if and only if the k-th wait since the last of them is over.
   */
  lemma OutExactlyUntil(
    policy: PoolPolicy, st: PoolState, es: seq<PoolEvent>, p: string, usages: map<string, AccountUsage>, later: World)
    requires Monotone(es) && OnlyPasses(es, p) && Streak(es, p) > 0 && later.now >= es[|es| - 1].w.now
    requires HealthOf(st, p).status == Healthy && HealthOf(st, p).failureCount == 0
    requires CapacityOf(usages, p).Some?
    ensures Eligible(Prune(Run(policy, st, es), policy, later), usages, later, p)
      <==> later.now >= LastFailure(es, p) + Wait(policy, Streak(es, p))
  {
    RunWaits(policy, st, es, p);
    var after := Run(policy, st, es);
    assert HealthOf(Prune(after, policy, later), p) == PrunedHealth(HealthOf(after, p), later.now);
  }

  // ---------------------------------------------------------------- expired credentials

  /** p's credential file reads as f, or not at all, when the step looks at it. */
  predicate Reads(e: PoolEvent, p: string, f: string) {
    e.w.Fingerprint(p) in {None, Some(f)}
  }

  predicate ReadsThroughout(es: seq<PoolEvent>, p: string, f: string) {
    forall i :: 0 <= i < |es| ==> Reads(es[i], p, f)
  }

  /** What takes the expired mark off p: a success, a failure of another kind, or one recorded under an older file. */
  predicate Lifts(e: PoolEvent, p: string, f: string) {
    || (e.EvSuccess? && e.profile == p)
    || (e.EvFailure? && e.profile == p && (!IsAuthKind(e.kind) || (e.given.Some? && e.given != Some(f))))
  }

  predicate ExpiredUnder(st: PoolState, p: string, f: string) {
    HealthOf(st, p).status == AuthExpired && HealthOf(st, p).fingerprint in {None, Some(f)}
  }

  /** One step, exactly: while the file stays the same, the account stays expired unless the step lifts it. */
  lemma StepKeepsExpired(policy: PoolPolicy, st: PoolState, e: PoolEvent, p: string, f: string)
    requires ExpiredUnder(st, p, f) && Reads(e, p, f)
    ensures ExpiredUnder(Apply(policy, st, e), p, f) <==> !Lifts(e, p, f)
  {
    if e.EvReserve? {
      HealthAfterReserve(st, policy, e.profiles, e.usages, e.req, e.w, p);
    }
  }

  /** The account is expired at every point of the run. */
  predicate ExpiredThroughout(policy: PoolPolicy, st: PoolState, es: seq<PoolEvent>, p: string, f: string) {
    ExpiredUnder(Run(policy, st, es), p, f) && (es != [] ==> ExpiredThroughout(policy, st, es[..|es| - 1], p, f))
  }

  predicate NoneLifts(es: seq<PoolEvent>, p: string, f: string) {
    forall i :: 0 <= i < |es| ==> !Lifts(es[i], p, f)
  }

  /** Over a run with the same file, exactly: the account is expired throughout if and only if no step lifts it. */
  lemma {:induction false} ExpiredStays(policy: PoolPolicy, st: PoolState, es: seq<PoolEvent>, p: string, f: string)
    requires ExpiredUnder(st, p, f) && ReadsThroughout(es, p, f)
    ensures ExpiredThroughout(policy, st, es, p, f) <==> NoneLifts(es, p, f)
  {
    if es != [] {
      var front, e := es[..|es| - 1], es[|es| - 1];
      ExpiredStays(policy, st, front, p, f);
      assert NoneLifts(es, p, f) <==> NoneLifts(front, p, f) && !Lifts(e, p, f) by {
        assert es == front + [e];
      }
      if ExpiredThroughout(policy, st, front, p, f) {
        StepKeepsExpired(policy, Run(policy, st, front), e, p, f);
      }
    }
  }

  /** No reservation picks an account with expired credentials while its file stays the same and nothing lifts it. */
  lemma NoReserveWhileExpired(policy: PoolPolicy, st: PoolState, es: seq<PoolEvent>, p: string, f: string, e: PoolEvent)
    requires ExpiredUnder(st, p, f) && ReadsThroughout(es, p, f) && e.EvReserve? && Reads(e, p, f)
    requires NoneLifts(es, p, f)
    ensures var r := Reserve(Run(policy, st, es), policy, e.profiles, e.usages, e.req, e.w).1;
      r.Reserved? ==> r.lease.profile != p
  {
    ExpiredStays(policy, st, es, p, f);
    var before := Run(policy, st, es);
    if Reserve(before, policy, e.profiles, e.usages, e.req, e.w).1.Reserved? {
      PickedWasEligible(before, policy, e.profiles, e.usages, e.req, e.w);
    }
  }

  /** It is back exactly when the file reads as something else than what failed. */
  lemma ExpiredReturnsWithNewFile(
    policy: PoolPolicy, st: PoolState, p: string, f: string, usages: map<string, AccountUsage>, w: World)
    requires HealthOf(st, p).status == AuthExpired && HealthOf(st, p).fingerprint == Some(f)
    requires CapacityOf(usages, p).Some?
    ensures Eligible(Prune(st, policy, w), usages, w, p) <==> p in w.files && w.files[p] != f
  {
    assert HealthOf(Prune(st, policy, w), p) == HealthOf(st, p);
  }

  /**
   * The limit of that rule: a failure of another kind replaces the expired status. The account stays marked
   * expired exactly when the new failure is about credentials too.
   */
  lemma LaterFailureReplacesExpiry(
    policy: PoolPolicy, st: PoolState, p: string, kind: string, given: Option<string>, w: World)
    requires HealthOf(st, p).status == AuthExpired
    ensures HealthOf(MarkFailure(st, policy, p, kind, given, w), p).status == AuthExpired <==> IsAuthKind(kind)
  {
    assert HealthOf(MarkFailure(st, policy, p, kind, given, w), p)
      == FailedHealth(policy, HealthOf(st, p).failureCount + 1, kind,
                      if given.Some? then given else w.Fingerprint(p), w.now);
  }

  /**
   * Its other limit: an authentication failure is recorded under the fingerprint read when the attempt began, which
   * may be older than the file. The account is eligible right afterwards, its file unchanged, exactly when it is.
   */
  lemma StaleFailureLetsBackIn(
    policy: PoolPolicy, st: PoolState, p: string, f: string, kind: string, given: Option<string>, w: World,
    later: World, usages: map<string, AccountUsage>)
    requires IsAuthKind(kind) && w.Fingerprint(p) == Some(f) && later.Fingerprint(p) == Some(f)
    requires CapacityOf(usages, p).Some?
    ensures Eligible(Prune(MarkFailure(st, policy, p, kind, given, w), policy, later), usages, later, p)
      <==> given.Some? && given != Some(f)
  {
    var failed := MarkFailure(st, policy, p, kind, given, w);
    assert HealthOf(Prune(failed, policy, later), p) == HealthOf(failed, p);
  }

  /**
   * A run of that kind: a request finds the new credentials refused; then a refresh worker that had started with the
   * old ones reports that they are refused too, and lets the account back in.
   */
  lemma LateWorkerLetsBackIn(usages: map<string, AccountUsage>)
    requires CapacityOf(usages, "a").Some?
    ensures var policy := PoolPolicy(30.0, 900.0, 86400.0);
      var w := World(0.0, {}, map["a" := "new"]);
      var es := [EvFailure("a", "401", Some("new"), w), EvFailure("a", "auth", Some("old"), w)];
      && !Eligible(Prune(Run(policy, EMPTY_POOL, es[..1]), policy, w), usages, w, "a")
      && Eligible(Prune(Run(policy, EMPTY_POOL, es), policy, w), usages, w, "a")
  {
    var policy := PoolPolicy(30.0, 900.0, 86400.0);
    var w := World(0.0, {}, map["a" := "new"]);
    var es := [EvFailure("a", "401", Some("new"), w), EvFailure("a", "auth", Some("old"), w)];
    var refused := Run(policy, EMPTY_POOL, es[..1]);
    assert es[..1][..0] == [] && Run(policy, EMPTY_POOL, []) == EMPTY_POOL;
    assert refused == Apply(policy, EMPTY_POOL, es[0]);
    StaleFailureLetsBackIn(policy, EMPTY_POOL, "a", "new", "401", Some("new"), w, w, usages);
    StaleFailureLetsBackIn(policy, refused, "a", "new", "auth", Some("old"), w, w, usages);
  }

  /**
   * So a network error lets an account with expired credentials back in, its file unchanged: after 60 seconds, since
   * it is the second failure in a row.
   */
  lemma ExpiredReturnsAfterNetworkError(usages: map<string, AccountUsage>)
    requires CapacityOf(usages, "a").Some?
    ensures var policy := PoolPolicy(30.0, 900.0, 86400.0);
      var files := map["a" := "f"];
      var failed := Run(policy, EMPTY_POOL, [
        EvFailure("a", "auth", None, World(0.0, {}, files)), EvFailure("a", "network", None, World(1.0, {}, files))]);
      && Eligible(Prune(failed, policy, World(61.0, {}, files)), usages, World(61.0, {}, files), "a")
      && !Eligible(Prune(failed, policy, World(60.9, {}, files)), usages, World(60.9, {}, files), "a")
  {
    var policy := PoolPolicy(30.0, 900.0, 86400.0);
    var files := map["a" := "f"];
    var es := [
      EvFailure("a", "auth", None, World(0.0, {}, files)), EvFailure("a", "network", None, World(1.0, {}, files))];
    var expired := Run(policy, EMPTY_POOL, es[..1]);
    assert es[..1][..0] == [] && Run(policy, EMPTY_POOL, []) == EMPTY_POOL;
    assert expired == Apply(policy, EMPTY_POOL, es[0]);
    BackoffIsExact(policy, expired, "a", "network", None, es[1].w, usages, World(61.0, {}, files));
    BackoffIsExact(policy, expired, "a", "network", None, es[1].w, usages, World(60.9, {}, files));
  }
}
