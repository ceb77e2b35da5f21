/** Which backend serves global requests: the one in control as long as it can, a newly reserved one otherwise. */
module ControlLaw {
  import opened Wrappers
  import opened Dicts
  import opened Pool
  import F = PoolFairness
  import opened Router
  import opened Multiplexer
  import opened ReplyLaw
  import opened MuxStructure
  import opened MuxRouting

  // ---------------------------------------------------------------- what can serve

  /** There is a control account, and its health lets it be used. */
  predicate ControlFit(s: Mux, w: World) {
    s.routes.control.Some? && HealthEligible(HealthOf(s.pool, s.routes.control.value), w.now)
  }

  /** And its process runs. */
  predicate ControlServes(s: Mux, w: World) {
    ControlFit(s, w) && Get(s.backends, s.routes.control.value) == Some(true)
  }

  /** Some account could be reserved now. */
  predicate AnyEligible(s: Mux, luck: Luck, w: World, cfg: Config) {
    luck.fetch.Some?
    && exists p ::
      p in luck.fetch.value.profiles && F.Eligible(Prune(s.pool, cfg.policy, w), luck.fetch.value.usages, w, p)
  }

  /** This account was reserved in the message, and was eligible then. */
  predicate NewlyReserved(s: Mux, t: Mux, q: string, luck: Luck, w: World, cfg: Config) {
    && luck.fetch.Some? && q in luck.fetch.value.profiles
    && F.Eligible(Prune(s.pool, cfg.policy, w), luck.fetch.value.usages, w, q)
    && t.pool.nextId == s.pool.nextId + 1
  }

  /** Control has moved to a newly reserved account; its lease is the new one, unless the process has died since. */
  predicate ControlMoved(s: Mux, t: Mux, luck: Luck, w: World, cfg: Config) {
    && t.routes.control.Some? && NewlyReserved(s, t, t.routes.control.value, luck, w, cfg)
    && (t.controlLease == Some(Reservation(s.pool.nextId, t.routes.control.value))
        || (t.controlLease.None? && (luck.dies || !luck.written)))
  }

  /** Control is where it was, under the same lease unless the process has died. */
  predicate ControlStays(s: Mux, t: Mux, luck: Luck) {
    && t.routes.control == s.routes.control && t.pool.nextId == s.pool.nextId
    && (t.controlLease == s.controlLease || (t.controlLease.None? && (luck.dies || !luck.written)))
  }

  // ---------------------------------------------------------------- the steps of a message

  /** A step that reserves nothing and leaves the routes. */
  predicate SamePlace(s: Mux, t: Mux) {
    t.routes == s.routes && t.pool.nextId == s.pool.nextId && (t.controlLease == s.controlLease || t.controlLease.None?)
  }

  lemma {:induction false} ReleaseAllKeepsNext(pool: PoolState, leases: seq<nat>)
    ensures ReleaseAll(pool, leases).nextId == pool.nextId
  {
    if leases != [] {
      ReleaseAllKeepsNext(pool, leases[..|leases| - 1]);
    }
  }

  lemma RetireSamePlace(s: Mux, p: string, w: World, cfg: Config)
    ensures SamePlace(s, Retire(s, p, w, cfg))
  {
    if Has(s.backends, p) {
      var pool := RetireIs(s, p, w, cfg);
      RetirePool(s, p, w, cfg);
    }
  }

  lemma RetirePool(s: Mux, p: string, w: World, cfg: Config)
    ensures Retire(s, p, w, cfg).pool.nextId == s.pool.nextId
  {
    forall pool: PoolState, leases { ReleaseAllKeepsNext(pool, leases); }
  }

  lemma EnsureSamePlace(s: Mux, p: string, starts: bool, w: World, cfg: Config)
    ensures var (t, up) := Ensure(s, p, starts, w, cfg);
      && SamePlace(s, t) && (up <==> Running(s, p) || starts) && (Running(s, p) ==> t == s)
      && (up ==> Running(t, p))
  {
    RetireSamePlace(s, p, w, cfg);
    GetPut(Retire(s, p, w, cfg).backends, p, true, p);
  }

  lemma TakePicks(s: Mux, routeKey: Option<string>, migrate: bool, luck: Luck, w: World, cfg: Config)
    ensures var (t, lease) := Take(s, routeKey, migrate, luck, w, cfg);
      && t == s.(pool := t.pool)
      && (lease.Some? <==> AnyEligible(s, luck, w, cfg))
      && (if lease.Some? then NewlyReserved(s, t, lease.value.profile, luck, w, cfg) && lease.value.id == s.pool.nextId
          else t == s)
  {
    if luck.fetch.Some? {
      var fetch, req := luck.fetch.value, SelectRequest(routeKey, migrate, cfg);
      F.RouteDecides(s.pool, cfg.policy, fetch.profiles, fetch.usages, req, w);
      if Reserve(s.pool, cfg.policy, fetch.profiles, fetch.usages, req, w).1.Reserved? {
        F.ReserveGrants(s.pool, cfg.policy, fetch.profiles, fetch.usages, req, w);
      }
    }
  }

  /** A selection: an account newly reserved whose backend runs, if there is one and its backend comes up. */
  lemma SelectPicks(s: Mux, routeKey: Option<string>, migrate: bool, luck: Luck, w: World, cfg: Config)
    ensures var (t, lease) := Select(s, routeKey, migrate, luck, w, cfg);
      && t.routes == s.routes && (s.controlLease.None? ==> t.controlLease.None?)
      && (AnyEligible(s, luck, w, cfg) && luck.starts ==> lease.Some?)
      && (lease.Some? ==>
            && NewlyReserved(s, t, lease.value.profile, luck, w, cfg)
            && lease.value.id == s.pool.nextId && Running(t, lease.value.profile))
  {
    TakePicks(s, routeKey, migrate, luck, w, cfg);
    var (s1, lease) := Take(s, routeKey, migrate, luck, w, cfg);
    if lease.Some? {
      EnsureSamePlace(s1, lease.value.profile, luck.starts, w, cfg);
    }
  }

  lemma SameHealth(s: Mux, t: Mux, luck: Luck, w: World, cfg: Config)
    requires t.pool.health == s.pool.health
    ensures AnyEligible(s, luck, w, cfg) == AnyEligible(t, luck, w, cfg)
    ensures forall u: Mux, q :: t.pool.nextId == s.pool.nextId && NewlyReserved(t, u, q, luck, w, cfg) ==>
      NewlyReserved(s, u, q, luck, w, cfg)
  {
    forall p { SameEligible(s.pool, t.pool, luck, w, cfg, p); }
  }

  lemma SameEligible(a: PoolState, b: PoolState, luck: Luck, w: World, cfg: Config, p: string)
    requires a.health == b.health
    ensures luck.fetch.Some? ==>
      F.Eligible(Prune(a, cfg.policy, w), luck.fetch.value.usages, w, p)
      == F.Eligible(Prune(b, cfg.policy, w), luck.fetch.value.usages, w, p)
  {
    assert Prune(a, cfg.policy, w).health == Prune(b, cfg.policy, w).health;
  }

  /** Moving control: to a newly reserved account whose backend runs, if there is one and its backend comes up. */
  lemma MoveControlPicks(s: Mux, luck: Luck, w: World, cfg: Config)
    ensures var (t, ok) := MoveControl(s, luck, w, cfg);
      && t.routes == s.routes.(control := t.routes.control)
      && (AnyEligible(s, luck, w, cfg) && luck.starts ==> ok)
      && (ok ==>
            && t.routes.control.Some? && Running(t, t.routes.control.value)
            && NewlyReserved(s, t, t.routes.control.value, luck, w, cfg)
            && t.controlLease == Some(Reservation(s.pool.nextId, t.routes.control.value)))
  {
    var s1 := if s.controlLease.Some? then Freed(s, Some(s.controlLease.value.lease)).(controlLease := None) else s;
    SameHealth(s, s1, luck, w, cfg);
    SelectPicks(s1, Some(CONTROL_KEY), s.routes.control.Some?, luck, w, cfg);
  }

  lemma ReachSamePlace(s: Mux, p: string, luck: Luck, w: World, cfg: Config)
    ensures var (t, up) := Reach(s, p, luck, w, cfg);
      && SamePlace(s, t) && (!luck.dies && Running(s, p) ==> t == s && up) && (up ==> Running(t, p))
      && (luck.restarts ==> up)
  {
    EnsureSamePlace(if luck.dies then Died(s, p) else s, p, luck.restarts, w, cfg);
  }

  /** A request sent to p is in flight there or nowhere; and there, if p runs and the write works. */
  lemma SendPlace(s: Mux, p: string, id: Id, lease: Option<nat>, luck: Luck, w: World, cfg: Config)
    requires id != IdNull && Fresh(s, id)
    ensures var (t, ok) := Send(s, p, id, lease, true, luck, w, cfg);
      && SamePlace(s, t) && (!luck.dies && luck.written && Running(s, p) ==> t.controlLease == s.controlLease)
      && (forall e :: e in t.pending && e.0.1 == IdKey(id) ==> e.0.0 == p)
      && (!luck.dies && luck.written && Running(s, p) ==> ok && Has(t.pending, MessageKey(p, id)))
  {
    SendPlaces(s, p, id, lease, true, luck, w, cfg);
    ReachSamePlace(s, p, luck, w, cfg);
    var s1 := Reach(s, p, luck, w, cfg).0;
    RetireSamePlace(Freed(Untracked(Tracked(s1, p, id, lease), p, id), lease), p, w, cfg);
    GetPut(s1.pending, MessageKey(p, id), Pending(id, lease), MessageKey(p, id));
  }

  // ---------------------------------------------------------------- global requests

  /** The control backend after the first part of a message that needs one that serves, or one that is fit. */
  predicate ControlReady(s: Mux, t: Mux, ok: bool, keeps: bool, luck: Luck, w: World, cfg: Config) {
    if keeps then ok && t == s
    else
      && t.routes == s.routes.(control := t.routes.control)
      && (AnyEligible(s, luck, w, cfg) && luck.starts ==> ok)
      && (ok ==> t.routes.control.Some? && Running(t, t.routes.control.value)
                 && NewlyReserved(s, t, t.routes.control.value, luck, w, cfg)
                 && t.controlLease == Some(Reservation(s.pool.nextId, t.routes.control.value)))
  }

  lemma ControlledIsReady(s: Mux, luck: Luck, w: World, cfg: Config)
    ensures var (t, ok) := Controlled(s, luck, w, cfg); ControlReady(s, t, ok, ControlServes(s, w), luck, w, cfg)
    ensures var (t, ok) := InitialControl(s, luck, w, cfg); ControlReady(s, t, ok, ControlFit(s, w), luck, w, cfg)
  {
    MoveControlPicks(s, luck, w, cfg);
  }

  /** The requests that any account can answer. */
  predicate GlobalVerb(m: ClientMessage) {
    m.verb.Verb? && m.verb.name in [
      "account/read", "account/logout", "account/rateLimits/read", "model/list", "config/read",
      "configRequirements/read", "experimentalFeature/list", "permissionProfile/list", "thread/list"]
  }

  /** A request of this id is in flight, or fanned out. */
  predicate Sent(s: Mux, t: Mux, id: Id) {
    (exists e :: e in t.pending && e.0.1 == IdKey(id)) || |t.aggs| > |s.aggs|
  }

  /** What a global request does to control, seen from the states before and after. */
  predicate GlobalServed(s: Mux, t: Mux, id: Id, luck: Luck, w: World, cfg: Config) {
    && (forall e :: e in t.pending && e.0.1 == IdKey(id) ==> t.routes.control == Some(e.0.0))
    && (ControlServes(s, w) ==> ControlStays(s, t, luck))
    && (!ControlServes(s, w) && Sent(s, t, id) ==> ControlMoved(s, t, luck, w, cfg))
  }

  lemma SentFromControl(s: Mux, s1: Mux, t: Mux, id: Id, luck: Luck, w: World, cfg: Config)
    requires ControlReady(s, s1, true, ControlServes(s, w), luck, w, cfg) && s1.routes.control.Some?
    requires SamePlace(s1, t) && (!luck.dies && luck.written ==> t.controlLease == s1.controlLease)
    requires forall e :: e in t.pending && e.0.1 == IdKey(id) ==> e.0.0 == s1.routes.control.value
    ensures GlobalServed(s, t, id, luck, w, cfg)
  {
  }

  lemma ControlSends(s: Mux, s1: Mux, id: Id, luck: Luck, w: World, cfg: Config)
    requires ControlReady(s, s1, true, ControlServes(s, w), luck, w, cfg) && s1.routes.control.Some?
    requires id != IdNull && Fresh(s1, id)
    ensures GlobalServed(s, Send(s1, s1.routes.control.value, id, None, true, luck, w, cfg).0, id, luck, w, cfg)
    ensures GlobalServed(s, FanOut(s1, id, luck).0, id, luck, w, cfg)
  {
    var p := s1.routes.control.value;
    SendPlace(s1, p, id, None, luck, w, cfg);
    SentFromControl(s, s1, Send(s1, p, id, None, true, luck, w, cfg).0, id, luck, w, cfg);
    SentFromControl(s, s1, FanOut(s1, id, luck).0, id, luck, w, cfg);
  }

  lemma GlobalIsServed(s: Mux, verb: string, id: Id, luck: Luck, w: World, cfg: Config)
    requires id != IdNull && Fresh(s, id)
    ensures GlobalServed(s, HandleGlobal(s, verb, id, luck, w, cfg).0, id, luck, w, cfg)
  {
    ControlledIsReady(s, luck, w, cfg);
    MoveControlKeepsFresh(s, luck, w, cfg, id);
    var (s1, ok) := Controlled(s, luck, w, cfg);
    if ok && s1.routes.control.Some? {
      ControlSends(s, s1, id, luck, w, cfg);
    } else {
      ControlLost(s, luck, w, cfg, id);
    }
  }

  lemma GlobalGetsThrough(s: Mux, verb: string, id: Id, luck: Luck, w: World, cfg: Config)
    requires id != IdNull && Fresh(s, id) && verb != "thread/list" && !luck.dies && luck.written
    requires ControlServes(s, w) || (AnyEligible(s, luck, w, cfg) && luck.starts)
    ensures var t := HandleGlobal(s, verb, id, luck, w, cfg).0;
      t.routes.control.Some? && Has(t.pending, MessageKey(t.routes.control.value, id))
  {
    ControlledIsReady(s, luck, w, cfg);
    MoveControlKeepsFresh(s, luck, w, cfg, id);
    var s1 := Controlled(s, luck, w, cfg).0;
    SendPlace(s1, s1.routes.control.value, id, None, luck, w, cfg);
  }

  /** When control cannot be moved nothing is sent. */
  lemma ControlLost(s: Mux, luck: Luck, w: World, cfg: Config, id: Id)
    requires Fresh(s, id) && !(Controlled(s, luck, w, cfg).1 && Controlled(s, luck, w, cfg).0.routes.control.Some?)
    ensures var t := Controlled(s, luck, w, cfg).0; Fresh(t, id) && |t.aggs| == |s.aggs| && !ControlServes(s, w)
  {
    ControlledIsReady(s, luck, w, cfg);
    MoveControlKeepsFresh(s, luck, w, cfg, id);
    MoveControlFansOutNothing(s, luck, w, cfg);
  }

  lemma MoveControlFansOutNothing(s: Mux, luck: Luck, w: World, cfg: Config)
    ensures |MoveControl(s, luck, w, cfg).0.aggs| == |s.aggs|
  {
    var s1 := MoveControlIsSelect(s, luck, w, cfg);
    var pool, p, pool' := SelectIsEnsure(s1, Some(CONTROL_KEY), s.routes.control.Some?, luck, w, cfg);
  }

  /**
   * Global requests. The request is in flight only at the control backend. That is the one of before, which is not
   * left, if it runs and its account is healthy; otherwise it is one whose account was reserved in this message and
   * was eligible then. And it is in flight there if the backend stays up and the write works, whenever control serves
   * or some account is eligible.
   */
  lemma GlobalRequestsAreServed(s: Mux, m: ClientMessage, luck: Luck, w: World, cfg: Config)
    requires IsRequest(s, m) && GlobalVerb(m) && m.id != IdNull && Fresh(s, m.id)
    ensures var t := ClientLine(s, m, luck, w, cfg);
      && GlobalServed(s, t, m.id, luck, w, cfg)
      && (m.verb.name != "thread/list" && !luck.dies && luck.written
          && (ControlServes(s, w) || (AnyEligible(s, luck, w, cfg) && luck.starts)) ==>
            t.routes.control.Some? && Has(t.pending, MessageKey(t.routes.control.value, m.id)))
  {
    GlobalIsHandled(s, m, luck, w, cfg);
    GlobalIsServed(s, m.verb.name, m.id, luck, w, cfg);
    if m.verb.name != "thread/list" && !luck.dies && luck.written
      && (ControlServes(s, w) || (AnyEligible(s, luck, w, cfg) && luck.starts)) {
      GlobalGetsThrough(s, m.verb.name, m.id, luck, w, cfg);
    }
  }

  lemma GlobalVerbs(m: ClientMessage)
    requires GlobalVerb(m)
    ensures m.verb.name in GLOBAL_METHODS && m.verb.name != "initialize" && m.verb.name != "initialized"
  {
  }

  lemma GlobalIsHandled(s: Mux, m: ClientMessage, luck: Luck, w: World, cfg: Config)
    requires IsRequest(s, m) && GlobalVerb(m)
    ensures var (t, ok) := HandleGlobal(s, m.verb.name, m.id, luck, w, cfg);
      ClientLine(s, m, luck, w, cfg)
      == if ok || m.id == IdNull then t else Written(t, Reply(m.id, ErrorContent(BACKEND_FAILED)))
  {
    GlobalVerbs(m);
    ListIsGlobal(s, m, luck, w, cfg);
    assert HandleClient(s, m, luck, w, cfg) == HandleGlobal(s, m.verb.name, m.id, luck, w, cfg);
  }

  // ---------------------------------------------------------------- the account control had before

  lemma {:induction false} ReleasingKeepsRoutes(pool: PoolState, leases: seq<nat>)
    ensures ReleaseAll(pool, leases).routes == pool.routes
  {
    if leases != [] {
      ReleasingKeepsRoutes(pool, leases[..|leases| - 1]);
    }
  }

  lemma RetireKeepsRoutes(s: Mux, p: string, w: World, cfg: Config)
    ensures Retire(s, p, w, cfg).pool.routes == s.pool.routes
  {
    forall pool: PoolState, leases { ReleasingKeepsRoutes(pool, leases); }
  }

  lemma SendKeepsRoutes(s: Mux, p: string, id: Id, luck: Luck, w: World, cfg: Config)
    ensures Send(s, p, id, None, true, luck, w, cfg).0.pool.routes == s.pool.routes
  {
    var s0 := if luck.dies then Died(s, p) else s;
    RetireKeepsRoutes(s0, p, w, cfg);
    var s1 := Reach(s, p, luck, w, cfg).0;
    var s2 := if id != IdNull then Tracked(s1, p, id, None) else s1;
    RetireKeepsRoutes(if id != IdNull then Untracked(s2, p, id) else s2, p, w, cfg);
  }

  /** The pool file without the lease of control. */
  function WithoutControl(s: Mux): PoolState {
    if s.controlLease.Some? then Release(s.pool, s.controlLease.value.lease) else s.pool
  }

  /** What the pool file says of control: the account it is with, for this server and for the next one. */
  predicate Recorded(pool: PoolState, p: string) {
    "__control__" in pool.routes && pool.routes["__control__"].profile == p
  }

  /**
   * A server that has no control account yet takes the one recorded, if that can be reserved; one that leaves its
   * account, or cannot take the recorded one, takes the first in the order of the pool.
   */
  ghost predicate PickedFor(pool: PoolState, leaving: bool, fetch: Fetch, w: World, cfg: Config, q: string) {
    var pruned := Prune(pool, cfg.policy, w);
    if !leaving && Recorded(pool, q) then q in fetch.profiles && F.Eligible(pruned, fetch.usages, w, q)
    else
      && F.IsFirst(
           pruned, fetch.profiles, fetch.usages, w,
           Candidates(pruned, fetch.profiles, fetch.usages, w).0.selectedAt, q)
      && (!leaving ==>
            forall p :: Recorded(pool, p) && p in fetch.profiles ==> !F.Eligible(pruned, fetch.usages, w, p))
  }

  lemma ReservePicks(pool: PoolState, leaving: bool, fetch: Fetch, w: World, cfg: Config)
    ensures var req := ReserveRequest(Some("__control__"), Pid(cfg.pid), leaving, !leaving);
      var (after, r) := Reserve(pool, cfg.policy, fetch.profiles, fetch.usages, req, w);
      r.Reserved? ==> PickedFor(pool, leaving, fetch, w, cfg, r.lease.profile) && Recorded(after, r.lease.profile)
  {
    var req := ReserveRequest(Some("__control__"), Pid(cfg.pid), leaving, !leaving);
    F.RouteDecides(pool, cfg.policy, fetch.profiles, fetch.usages, req, w);
  }

  lemma SelectChooses(s: Mux, leaving: bool, luck: Luck, w: World, cfg: Config)
    ensures var (t, lease) := Select(s, Some(CONTROL_KEY), leaving, luck, w, cfg);
      lease.Some? ==>
        && luck.fetch.Some? && PickedFor(s.pool, leaving, luck.fetch.value, w, cfg, lease.value.profile)
        && Recorded(t.pool, lease.value.profile)
  {
    if luck.fetch.Some? {
      ReservePicks(s.pool, leaving, luck.fetch.value, w, cfg);
      var (s1, lease) := Take(s, Some(CONTROL_KEY), leaving, luck, w, cfg);
      if lease.Some? {
        RetireKeepsRoutes(s1, lease.value.profile, w, cfg);
      }
    }
  }

  /** The account that control has moved to: how it was picked; and it is recorded. */
  ghost predicate ControlChosen(s: Mux, t: Mux, luck: Luck, w: World, cfg: Config) {
    && luck.fetch.Some? && t.routes.control.Some? && Recorded(t.pool, t.routes.control.value)
    && PickedFor(WithoutControl(s), s.routes.control.Some?, luck.fetch.value, w, cfg, t.routes.control.value)
  }

  lemma MoveControlChooses(s: Mux, luck: Luck, w: World, cfg: Config)
    ensures var (t, ok) := MoveControl(s, luck, w, cfg); ok ==> ControlChosen(s, t, luck, w, cfg)
  {
    var s1 := if s.controlLease.Some? then Freed(s, Some(s.controlLease.value.lease)).(controlLease := None) else s;
    SelectChooses(s1, s.routes.control.Some?, luck, w, cfg);
  }

  lemma SentChooses(s: Mux, s1: Mux, id: Id, luck: Luck, w: World, cfg: Config)
    requires id != IdNull && Fresh(s1, id) && ControlChosen(s, s1, luck, w, cfg)
    ensures ControlChosen(s, Send(s1, s1.routes.control.value, id, None, true, luck, w, cfg).0, luck, w, cfg)
    ensures ControlChosen(s, FanOut(s1, id, luck).0, luck, w, cfg)
  {
    SendPlace(s1, s1.routes.control.value, id, None, luck, w, cfg);
    SendKeepsRoutes(s1, s1.routes.control.value, id, luck, w, cfg);
  }

  lemma GlobalChooses(s: Mux, verb: string, id: Id, luck: Luck, w: World, cfg: Config)
    requires id != IdNull && Fresh(s, id) && !ControlServes(s, w)
    ensures var t := HandleGlobal(s, verb, id, luck, w, cfg).0;
      Sent(s, t, id) ==> ControlChosen(s, t, luck, w, cfg)
  {
    MoveControlChooses(s, luck, w, cfg);
    MoveControlKeepsFresh(s, luck, w, cfg, id);
    var (s1, ok) := Controlled(s, luck, w, cfg);
    assert (s1, ok) == MoveControl(s, luck, w, cfg);
    if ok {
      SentChooses(s, s1, id, luck, w, cfg);
    } else {
      ControlLost(s, luck, w, cfg, id);
    }
  }

  /** A global request for which control moves: where it moves to. */
  lemma ControlIsRemembered(s: Mux, m: ClientMessage, luck: Luck, w: World, cfg: Config)
    requires IsRequest(s, m) && GlobalVerb(m) && m.id != IdNull && Fresh(s, m.id) && !ControlServes(s, w)
    ensures var t := ClientLine(s, m, luck, w, cfg);
      Sent(s, t, m.id) ==> ControlChosen(s, t, luck, w, cfg)
  {
    GlobalIsHandled(s, m, luck, w, cfg);
    GlobalChooses(s, m.verb.name, m.id, luck, w, cfg);
  }

  // ---------------------------------------------------------------- initialize

  /** The last thing the client is told. */
  function LastSent(t: Mux): Option<Output> {
    if t.out == [] then None else Some(t.out[|t.out| - 1])
  }

  lemma GreetingServes(s1: Mux, id: Id, luck: Luck, w: World, cfg: Config)
    requires s1.routes.control.Some?
    ensures var p := s1.routes.control.value;
      var (s2, up) := Reach(s1, p, luck, w, cfg);
      var t := if up then Written(s2, Reply(id, InitialResult(p))) else s2;
      && SamePlace(s1, t) && (luck.restarts ==> up)
      && (up ==> LastSent(t) == Some(Reply(id, InitialResult(t.routes.control.value))))
  {
    ReachSamePlace(s1, s1.routes.control.value, luck, w, cfg);
  }

  lemma HandleInitializeServes(s: Mux, id: Id, luck: Luck, w: World, cfg: Config)
    ensures var (t, ok) := HandleInitialize(s, id, luck, w, cfg);
      && (ControlFit(s, w) ==> t.routes.control == s.routes.control && t.pool.nextId == s.pool.nextId)
      && (ok ==> t.routes.control.Some? && LastSent(t) == Some(Reply(id, InitialResult(t.routes.control.value))))
      && (ok && !ControlFit(s, w) ==> NewlyReserved(s, t, t.routes.control.value, luck, w, cfg))
      && ((ControlFit(s, w) || (AnyEligible(s, luck, w, cfg) && luck.starts)) && luck.restarts ==> ok)
  {
    ControlledIsReady(s, luck, w, cfg);
    var (s1, ok) := InitialControl(s, luck, w, cfg);
    if ok && s1.routes.control.Some? {
      GreetingServes(s1, id, luck, w, cfg);
    }
  }

  /**
   * An `initialize` is answered with the name of the control backend, or with an error. The control backend is the
   * one of before if its account is healthy, running or not; otherwise it is one whose account was reserved in this
   * message and was eligible then. There is no error when the backend can be brought up.
   */
  lemma InitializeIsServed(s: Mux, m: ClientMessage, luck: Luck, w: World, cfg: Config)
    requires IsRequest(s, m) && m.verb == Verb("initialize") && m.id != IdNull
    ensures var t := ClientLine(s, m, luck, w, cfg);
      var error := LastSent(t) == Some(Reply(m.id, ErrorContent(BACKEND_FAILED)));
      && (!error ==>
            && t.routes.control.Some?
            && LastSent(t) == Some(Reply(m.id, InitialResult(t.routes.control.value)))
            && (!ControlFit(s, w) ==> NewlyReserved(s, t, t.routes.control.value, luck, w, cfg)))
      && (ControlFit(s, w) ==> t.routes.control == s.routes.control && t.pool.nextId == s.pool.nextId)
      && ((ControlFit(s, w) || (AnyEligible(s, luck, w, cfg) && luck.starts)) && luck.restarts ==> !error)
  {
    HandleInitializeServes(s, m.id, luck, w, cfg);
    var (t, ok) := HandleInitialize(s, m.id, luck, w, cfg);
    assert ClientLine(s, m, luck, w, cfg) == if ok then t else Written(t, Reply(m.id, ErrorContent(BACKEND_FAILED)));
  }
}
