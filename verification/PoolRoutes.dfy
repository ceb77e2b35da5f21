/**
 * Which account a request gets over whole runs: the one its route had last, or the first in the order of the pool.
 */
module PoolRoutes {
  import opened Wrappers
  import opened Text
  import opened AccountUsages
  import opened Pool
  import opened PoolFairness
  import opened PoolHealthRuns

  // ---------------------------------------------------------------- routes

  /** What a route says, of any key. */
  function RouteOf(st: PoolState, key: string): Option<PoolRoute> {
    if key in st.routes then Some(st.routes[key]) else None
  }

  /** The request has a route key that is not empty, and it is this one. */
  predicate Names(req: ReserveRequest, key: string) {
    key != "" && req.routeKey == Some(key)
  }

  /**
   * A granted request records its account under its key, with the time of the first grant kept, and touches no other
   * route; a request without a key, or one that is refused, touches none.
   */
  lemma ReserveRecordsRoute(
    st: PoolState, policy: PoolPolicy, profiles: seq<string>, usages: map<string, AccountUsage>, req: ReserveRequest,
    w: World, key: string)
    ensures var (after, r) := Reserve(st, policy, profiles, usages, req, w);
      RouteOf(after, key) ==
        if r.Reserved? && Names(req, key) then
          Some(PoolRoute(r.lease.profile, if key in st.routes then st.routes[key].createdAt else w.now, w.now))
        else RouteOf(st, key)
  {
    CandidatesAre(Prune(st, policy, w), profiles, usages, w);
  }

  /** The history of a key: the account it was last granted, when first and when last, unless cleared since. */
  function LastGranted(policy: PoolPolicy, st: PoolState, es: seq<PoolEvent>, key: string): Option<PoolRoute> {
    if es == [] then RouteOf(st, key)
    else
      var front, e := es[..|es| - 1], es[|es| - 1];
      var before := LastGranted(policy, st, front, key);
      match e
      case EvReserve(profiles, usages, req, w) =>
        var r := Reserve(Run(policy, st, front), policy, profiles, usages, req, w).1;
        if r.Reserved? && Names(req, key)
        then Some(PoolRoute(r.lease.profile, if before.Some? then before.value.createdAt else w.now, w.now))
        else before
      case EvClearRoute(cleared, _) => if cleared == key then None else before
      case _ => before
  }

  lemma {:induction false} RoutesAreLastGranted(policy: PoolPolicy, st: PoolState, es: seq<PoolEvent>, key: string)
    ensures RouteOf(Run(policy, st, es), key) == LastGranted(policy, st, es, key)
  {
    if es != [] {
      var front, e := es[..|es| - 1], es[|es| - 1];
      RoutesAreLastGranted(policy, st, front, key);
      if e.EvReserve? {
        ReserveRecordsRoute(Run(policy, st, front), policy, e.profiles, e.usages, e.req, e.w, key);
      }
    }
  }

  /**
   * Sticky routes over runs: a request that keeps to its route gets the account last granted under its key, whenever
   * that is listed and eligible, whatever came in between.
   */
  lemma RequestKeepsAccount(
    policy: PoolPolicy, st: PoolState, es: seq<PoolEvent>, key: string, profiles: seq<string>,
    usages: map<string, AccountUsage>, req: ReserveRequest, w: World)
    requires Names(req, key) && (!req.allowMigrate || req.recoverSticky)
    requires LastGranted(policy, st, es, key).Some?
    requires var p := LastGranted(policy, st, es, key).value.profile;
      p in profiles && Eligible(Prune(Run(policy, st, es), policy, w), usages, w, p)
    ensures var r := Reserve(Run(policy, st, es), policy, profiles, usages, req, w).1;
      r.Reserved? && r.lease.profile == LastGranted(policy, st, es, key).value.profile
  {
    RoutesAreLastGranted(policy, st, es, key);
    RouteDecides(Run(policy, st, es), policy, profiles, usages, req, w);
  }

  // ---------------------------------------------------------------- the order of the pool

  /** When the account was last selected, as far as the file knows; the beginning of time otherwise. */
  function SelectedTime(selectedAt: map<string, real>, p: string): real {
    if p in selectedAt then selectedAt[p] else 0.0
  }

  /** One text comes before another: at the first place where they differ, or because it ends there. */
  predicate Before(a: string, b: string) {
    exists n: nat :: n <= |a| && n < |b| && a[..n] == b[..n] && (n == |a| || (n < |a| && a[n] < b[n]))
  }

  /** The first of the five keys in which two candidates differ decides. */
  lemma FirstDifferenceDecides(a: Candidate, b: Candidate, selectedAt: map<string, real>)
    ensures var less := KeyLess(a, b, selectedAt);
      var sa, sb := SelectedTime(selectedAt, a.profile), SelectedTime(selectedAt, b.profile);
      if a.effective != b.effective then less == (a.effective > b.effective)
      else if a.remaining != b.remaining then less == (a.remaining > b.remaining)
      else if sa != sb then less == (sa < sb)
      else if a.resetsAt != b.resetsAt then
        less == (b.resetsAt.None? || (a.resetsAt.Some? && a.resetsAt.value < b.resetsAt.value))
      else less == Before(a.profile, b.profile)
  {
    StrLessIsBefore(a.profile, b.profile);
  }

  lemma {:induction false} StrLessIsBefore(a: string, b: string)
    ensures StrLess(a, b) <==> Before(a, b)
  {
    if a != [] && b != [] && a[0] == b[0] {
      StrLessIsBefore(a[1..], b[1..]);
      if Before(a[1..], b[1..]) {
        var n: nat :| n <= |a[1..]| && n < |b[1..]| && a[1..][..n] == b[1..][..n]
          && (n == |a[1..]| || (n < |a[1..]| && a[1..][n] < b[1..][n]));
        assert a[..n + 1] == [a[0]] + a[1..][..n] && b[..n + 1] == [b[0]] + b[1..][..n];
      }
      if Before(a, b) {
        var n: nat :| n <= |a| && n < |b| && a[..n] == b[..n] && (n == |a| || (n < |a| && a[n] < b[n]));
        assert n > 0;
        assert a[1..][..n - 1] == a[..n][1..] && b[1..][..n - 1] == b[..n][1..];
      }
    } else if a == [] && b != [] {
      assert a[..0] == b[..0];
    }
  }

  // ---------------------------------------------------------------- taking turns

  /** When the account was last granted along the run. */
  function LastGrant(policy: PoolPolicy, st: PoolState, es: seq<PoolEvent>, p: string): Option<real> {
    if es == [] then None
    else
      var front, e := es[..|es| - 1], es[|es| - 1];
      if e.EvReserve?
        && (var r := Reserve(Run(policy, st, front), policy, e.profiles, e.usages, e.req, e.w).1;
            r.Reserved? && r.lease.profile == p)
      then Some(e.w.now) else LastGrant(policy, st, front, p)
  }

  lemma {:induction false} CandidatesKeepSelected(
    st: PoolState, profiles: seq<string>, usages: map<string, AccountUsage>, w: World, p: string)
    requires p in st.selectedAt
    ensures var after := Candidates(st, profiles, usages, w).0;
      p in after.selectedAt && after.selectedAt[p] == st.selectedAt[p]
  {
    if profiles != [] {
      CandidatesKeepSelected(st, profiles[..|profiles| - 1], usages, w, p);
    }
  }

  /** The pool knows when it granted an account last, whatever has happened to the account since. */
  lemma {:induction false} GrantsAreRemembered(policy: PoolPolicy, st: PoolState, es: seq<PoolEvent>, p: string)
    ensures var last, after := LastGrant(policy, st, es, p), Run(policy, st, es);
      last.Some? ==> p in after.selectedAt && after.selectedAt[p] == last.value
  {
    if es != [] {
      var front, e := es[..|es| - 1], es[|es| - 1];
      var mid := Run(policy, st, front);
      GrantsAreRemembered(policy, st, front, p);
      if e.EvReserve? && p in mid.selectedAt {
        CandidatesKeepSelected(Prune(mid, policy, e.w), e.profiles, e.usages, e.w, p);
      }
    }
  }

  /** What is known of the time of selection of p after looking at one account. */
  lemma ChangeSelects(st: PoolState, last: string, w: World, p: string)
    ensures var after := HealthAfterAuthChange(st, last, w);
      var back := p == last && Returns(HealthOf(st, p), w.Fingerprint(p));
      && (p in after.selectedAt <==> p in st.selectedAt || back)
      && (p in after.selectedAt ==> after.selectedAt[p] == if p in st.selectedAt then st.selectedAt[p] else w.now)
  {
  }

  /** What the pool knows of the times of selection after looking at these accounts. */
  lemma {:induction false} CandidatesSelect(
    st: PoolState, profiles: seq<string>, usages: map<string, AccountUsage>, w: World, p: string)
    ensures var after := Candidates(st, profiles, usages, w).0;
      && (p in after.selectedAt <==>
            p in st.selectedAt || (p in profiles && Returns(HealthOf(st, p), w.Fingerprint(p))))
      && (p in after.selectedAt ==>
            after.selectedAt[p] == if p in st.selectedAt then st.selectedAt[p] else w.now)
  {
    if profiles != [] {
      var front, last := profiles[..|profiles| - 1], profiles[|profiles| - 1];
      assert profiles == front + [last];
      var before := Candidates(st, front, usages, w).0;
      CandidatesSelect(st, front, usages, w, p);
      CandidatesRecover(st, front, usages, w, p);
      ChangeSelects(before, last, w, p);
      assert Candidates(st, profiles, usages, w).0 == HealthAfterAuthChange(before, last, w);
    }
  }

  /** A granted request selects its account now, and any listed account that comes back and was never selected. */
  lemma ReserveSelects(
    st: PoolState, policy: PoolPolicy, profiles: seq<string>, usages: map<string, AccountUsage>, req: ReserveRequest,
    w: World, p: string)
    ensures var (after, r) := Reserve(st, policy, profiles, usages, req, w);
      if !r.Reserved? then after == st
      else
        var selected := p == r.lease.profile;
        var back := p in profiles && Returns(HealthOf(st, p), w.Fingerprint(p));
        && (p in after.selectedAt <==> p in st.selectedAt || selected || back)
        && (p in after.selectedAt ==>
              after.selectedAt[p] == if !selected && p in st.selectedAt then st.selectedAt[p] else w.now)
  {
    CandidatesSelect(Prune(st, policy, w), profiles, usages, w, p);
  }

  /** Two accounts a request could get, with as much left and as many leases each. */
  predicate Equals(
    st: PoolState, profiles: seq<string>, usages: map<string, AccountUsage>, w: World, p: string, q: string)
  {
    && p in profiles && q in profiles && Eligible(st, usages, w, p) && Eligible(st, usages, w, q)
    && CapacityOf(usages, p).value.remaining == CapacityOf(usages, q).value.remaining
    && LeaseCount(st.leases, p) == LeaseCount(st.leases, q)
  }

  lemma FirstOfEquals(
    st: PoolState, profiles: seq<string>, usages: map<string, AccountUsage>, w: World, selectedAt: map<string, real>,
    p: string, q: string)
    requires IsFirst(st, profiles, usages, w, selectedAt, p) && Equals(st, profiles, usages, w, p, q)
    requires p in selectedAt && q in selectedAt
    ensures selectedAt[p] <= selectedAt[q]
  {
    FirstDifferenceDecides(
      CandidateFor(st, q, CapacityOf(usages, q).value), CandidateFor(st, p, CapacityOf(usages, p).value), selectedAt);
  }

  lemma UnroutedGetsFirst(
    st: PoolState, policy: PoolPolicy, profiles: seq<string>, usages: map<string, AccountUsage>, req: ReserveRequest,
    w: World)
    requires !req.Routed() && Reserve(st, policy, profiles, usages, req, w).1.Reserved?
    ensures var pruned := Prune(st, policy, w);
      IsFirst(
        pruned, profiles, usages, w, Candidates(pruned, profiles, usages, w).0.selectedAt,
        Reserve(st, policy, profiles, usages, req, w).1.lease.profile)
  {
    RouteDecides(st, policy, profiles, usages, req, w);
  }

  lemma StillKnown(
    policy: PoolPolicy, st: PoolState, es: seq<PoolEvent>, profiles: seq<string>, usages: map<string, AccountUsage>,
    w: World, p: string)
    requires LastGrant(policy, st, es, p).Some?
    ensures var selectedAt := Candidates(Prune(Run(policy, st, es), policy, w), profiles, usages, w).0.selectedAt;
      p in selectedAt && selectedAt[p] == LastGrant(policy, st, es, p).value
  {
    GrantsAreRemembered(policy, st, es, p);
    CandidatesKeepSelected(Prune(Run(policy, st, es), policy, w), profiles, usages, w, p);
  }

  /**
   * Equal accounts take turns: of two that have been granted before, a request without a route gets the earlier one.
   */
  lemma EqualsTakeTurns(
    policy: PoolPolicy, st: PoolState, es: seq<PoolEvent>, profiles: seq<string>, usages: map<string, AccountUsage>,
    req: ReserveRequest, w: World, q: string)
    requires !req.Routed() && Reserve(Run(policy, st, es), policy, profiles, usages, req, w).1.Reserved?
    requires var p := Reserve(Run(policy, st, es), policy, profiles, usages, req, w).1.lease.profile;
      && Equals(Prune(Run(policy, st, es), policy, w), profiles, usages, w, p, q)
      && LastGrant(policy, st, es, p).Some? && LastGrant(policy, st, es, q).Some?
    ensures var p := Reserve(Run(policy, st, es), policy, profiles, usages, req, w).1.lease.profile;
      LastGrant(policy, st, es, p).value <= LastGrant(policy, st, es, q).value
  {
    var before := Run(policy, st, es);
    var pruned, p := Prune(before, policy, w), Reserve(before, policy, profiles, usages, req, w).1.lease.profile;
    UnroutedGetsFirst(before, policy, profiles, usages, req, w);
    StillKnown(policy, st, es, profiles, usages, w, p);
    StillKnown(policy, st, es, profiles, usages, w, q);
    FirstOfEquals(pruned, profiles, usages, w, Candidates(pruned, profiles, usages, w).0.selectedAt, p, q);
  }
}
