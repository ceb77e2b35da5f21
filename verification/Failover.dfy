/** The two retry loops of pool_responses.py, each moving from account to account until one answers. */
module Failover {
  // One streams a request, the other lists models. Functions say what a call does; the proxy object performs it, and is
  // proved against them.

  import opened Wrappers
  import opened AccountUsages
  import opened Pool

  // ---------------------------------------------------------------- what happens outside

  datatype Body = Bytes(text: string) | FixedError | ErrorReport(reason: string)

  /** What comes of opening a request upstream with one account, read whole or in chunks. */
  datatype Upstream =
    | NoToken
    | Unreachable(reason: string)
    | Refused(status: int, body: Option<string>, reason: string)
    | Answered(status: int, body: Option<string>, chunks: seq<string>, breaks: bool, reason: string)

  datatype Fetch = Fetch(profiles: seq<string>, usages: map<string, AccountUsage>)

  /**
   * The caller's `on_headers` and `on_chunk`. One that breaks raises in its call number `at` for a response, the
   * headers being call 0: an OSError or HTTPException, which the loop catches around a request, or something else.
   */
  datatype Callback = Works | Breaks(at: nat, caught: bool, reason: string)

  /** One turn of the loop, with the steps other threads and processes take around those of the call. */
  datatype Turn = Turn(
    fetch: Option<Fetch>,        // none: no saved profile, or the fetch failed
    before: seq<PoolEvent>,
    reserving: World,
    reading: World,              // when the account's file is read, before it is used
    upstream: Upstream,
    callback: Callback,
    during: seq<PoolEvent>,
    marking: World,
    between: seq<PoolEvent>,     // before a broken callback is marked as a failure of the account
    remarking: World,
    again: Callback,             // how the callbacks take a second response in the turn
    after: seq<PoolEvent>)

  // ---------------------------------------------------------------- one turn

  const RETRYABLE := {401, 403, 408, 409, 429, 500, 502, 503, 504}

  datatype Mark = Fails(kind: string) | Succeeds

  datatype Kept = Kept(status: int, body: Body)

  /** A response is returned, or relayed while it is read, or sent from an inner or from the outer error handler. */
  datatype Handover = Returning | Relaying | InHandler | InOuterHandler

  /** Try another account, keeping the response if there is one; or answer the client. */
  datatype Next = Again(kept: Option<Kept>) | Final(status: int, chunks: seq<Body>, via: Handover)

  datatype Decision = Decision(opens: bool, mark: Option<Mark>, next: Next)

  datatype Loop = Streaming | Models

  function StatusKind(status: int): string {
    if status == 401 then "401" else "upstream"
  }

  function Rejected(kind: string, status: int, body: Body, last: bool, via: Handover): Decision {
    Decision(true, Some(Fails(kind)), if last then Final(status, [body], via) else Again(Some(Kept(status, body))))
  }

  function Broken(kind: string, opens: bool, status: int, body: Body, last: bool, via: Handover): Decision {
    Decision(opens, Some(Fails(kind)), if last then Final(status, [body], via) else Again(None))
  }

  function AllBytes(chunks: seq<string>): seq<Body> {
    seq(|chunks|, i requires 0 <= i < |chunks| => Bytes(chunks[i]))
  }

  /** What the loop makes of an outcome, as long as the callbacks work; `last` on the last turn it may take. */
  function Decide(loop: Loop, up: Upstream, last: bool): Decision {
    var via := if loop.Streaming? then InHandler else Returning;
    match up
    case NoToken => Broken("auth", false, 503, FixedError, last, via)
    case Unreachable(_) => Broken("network", true, 502, FixedError, last, via)
    case Refused(status, None, reason) =>
      if loop.Streaming? then Broken("network", true, 502, ErrorReport(reason), last, InOuterHandler)
      else Broken("network", true, 502, FixedError, last, via)
    case Refused(status, Some(body), _) =>
      if status in RETRYABLE then Rejected(StatusKind(status), status, Bytes(body), last, via)
      else Decision(true, None, Final(status, [Bytes(body)], via))
    case Answered(status, body, chunks, breaks, _) =>
      if loop.Streaming? && (last || status !in RETRYABLE) then
        Decision(true, Some(if breaks then Fails("network") else Succeeds), Final(status, AllBytes(chunks), Relaying))
      else if body.None? then Broken("network", true, 502, FixedError, last, via)
      else if status in RETRYABLE then Rejected(StatusKind(status), status, Bytes(body.value), last, via)
      else Decision(true, Some(Succeeds), Final(status, [Bytes(body.value)], via))
  }

  // ---------------------------------------------------------------- a call

  /** What a call is seen to do: accounts it takes, requests it opens, and what the client gets. */
  datatype Act =
    | Reserves(lease: nat, profile: string)
    | Opens(profile: string)
    | Headers(status: int)
    | Chunk(body: Body)

  /** Raised: no account can be reserved. Interrupted: a callback's error leaves the call. */
  datatype Verdict = Trying | Returned | Raised | Interrupted

  datatype Call = Call(pool: PoolState, acts: seq<Act>, kept: Option<Kept>, verdict: Verdict)

  datatype ProxyConfig = ProxyConfig(policy: PoolPolicy, pid: int, maxRetries: int)

  function Chunks(bodies: seq<Body>): seq<Act> {
    seq(|bodies|, i requires 0 <= i < |bodies| => Chunk(bodies[i]))
  }

  predicate BreaksIn(callback: Callback, bodies: seq<Body>) {
    callback.Breaks? && callback.at <= |bodies|
  }

  /** The calls made for a response, the one that breaks being the last. */
  function Calls(status: int, bodies: seq<Body>, callback: Callback): seq<Act> {
    [Headers(status)] + Chunks(if BreaksIn(callback, bodies) then bodies[..callback.at] else bodies)
  }

  function Emit(c: Call, status: int, bodies: seq<Body>, callback: Callback): Call {
    c.(acts := c.acts + Calls(status, bodies, callback),
       verdict := if BreaksIn(callback, bodies) then Interrupted else Returned)
  }

  /** How a turn ends: the marks it makes, what is sent, and whether the loop goes on. */
  datatype Ending = Ending(mark: Option<Mark>, remark: bool, sent: seq<Act>, verdict: Verdict)

  /** A callback breaks in an inner handler, so that the outer one takes its error for one of the account. */
  predicate Relapses(d: Decision, t: Turn) {
    d.next.Final? && d.next.via.InHandler? && BreaksIn(t.callback, d.next.chunks) && t.callback.caught
  }

  function HandOver(d: Decision, t: Turn, last: bool): Ending {
    match d.next
    case Again(_) => Ending(d.mark, false, [], Trying)
    case Final(status, bodies, Returning) => Ending(d.mark, false, Calls(status, bodies, Works), Returned)
    case Final(status, bodies, via) =>
      var sent := Calls(status, bodies, t.callback);
      if !BreaksIn(t.callback, bodies) then Ending(d.mark, false, sent, Returned)
      else if via.Relaying? then
        if t.callback.caught then Ending(Some(Fails("network")), false, sent, Returned)
        else Ending(None, false, sent, Interrupted)
      else if via.InOuterHandler? || !t.callback.caught then Ending(d.mark, false, sent, Interrupted)
      else if !last then Ending(d.mark, true, sent, Trying)
      else
        var report := [ErrorReport(t.callback.reason)];
        Ending(d.mark, true, sent + Calls(502, report, t.again),
               if BreaksIn(t.again, report) then Interrupted else Returned)
  }

  function TurnRequest(loop: Loop, routeKey: Option<string>, k: nat, cfg: ProxyConfig): ReserveRequest {
    match loop
    case Streaming => ReserveRequest(routeKey, Pid(cfg.pid), k > 0, routeKey.GetOr("") != "" && k == 0)
    case Models => ReserveRequest(None, Pid(cfg.pid), k > 0, false)
  }

  function Reserving(pool: PoolState, loop: Loop, routeKey: Option<string>, t: Turn, k: nat, cfg: ProxyConfig)
    : (PoolState, ReserveResult)
  {
    var st := Run(cfg.policy, pool, t.before);
    if t.fetch.None? then (st, NoAccount)
    else Reserve(st, cfg.policy, t.fetch.value.profiles, t.fetch.value.usages, TurnRequest(loop, routeKey, k, cfg),
      t.reserving)
  }

  /** Only the streaming loop calls back; the other returns its response. */
  function Used(loop: Loop, callback: Callback): Callback {
    if loop.Streaming? then callback else Works
  }

  /** No account is left: the client gets the last rejected response, or the error is raised. */
  function GiveUp(c: Call, loop: Loop, callback: Callback): Call {
    if c.kept.None? then c.(verdict := Raised)
    else Emit(c, c.kept.value.status, [c.kept.value.body], Used(loop, callback))
  }

  function Marked(pool: PoolState, mark: Option<Mark>, profile: string, reading: World, w: World, policy: PoolPolicy)
    : PoolState
  {
    match mark
    case None => pool
    case Some(Fails(kind)) => MarkFailure(pool, policy, profile, kind, reading.Fingerprint(profile), w)
    case Some(Succeeds) => MarkSuccess(pool, profile, w)
  }

  /** The pool after the mark of a turn, and after its second one. */
  function AfterMarks(pool: PoolState, e: Ending, profile: string, t: Turn, policy: PoolPolicy): PoolState {
    var marked := Marked(Run(policy, pool, t.during), e.mark, profile, t.reading, t.marking, policy);
    if e.remark then Marked(Run(policy, marked, t.between), Some(Fails("network")), profile, t.reading, t.remarking,
      policy)
    else marked
  }

  /** The pool after an account has been used, marked and released. */
  function Settled(pool: PoolState, e: Ending, lease: PoolLease, t: Turn, policy: PoolPolicy): PoolState {
    Release(Run(policy, AfterMarks(pool, e, lease.profile, t, policy), t.after), lease.id)
  }

  function Taking(lease: PoolLease, opens: bool): seq<Act> {
    [Reserves(lease.id, lease.profile)] + if opens then [Opens(lease.profile)] else []
  }

  function Ended(c: Call, lease: PoolLease, t: Turn, d: Decision, e: Ending, policy: PoolPolicy): Call {
    Call(Settled(c.pool, e, lease, t, policy), c.acts + (Taking(lease, d.opens) + e.sent),
         if d.next.Again? && d.next.kept.Some? then d.next.kept else c.kept, e.verdict)
  }

  function Use(c: Call, loop: Loop, lease: PoolLease, t: Turn, last: bool, cfg: ProxyConfig): Call {
    var d := Decide(loop, t.upstream, last);
    Ended(c, lease, t, d, HandOver(d, t, last), cfg.policy)
  }

  function Attempt(c: Call, loop: Loop, routeKey: Option<string>, t: Turn, k: nat, cfg: ProxyConfig): Call {
    var (pool, r) := Reserving(c.pool, loop, routeKey, t, k, cfg);
    if r.Reserved? then Use(c.(pool := pool), loop, r.lease, t, k >= cfg.maxRetries, cfg)
    else GiveUp(c.(pool := pool), loop, t.callback)
  }

  /** The first turns of a call, until it is over. */
  function Tried(pool: PoolState, loop: Loop, routeKey: Option<string>, turns: seq<Turn>, cfg: ProxyConfig): Call {
    if turns == [] then Call(pool, [], None, Trying)
    else
      var k := |turns| - 1;
      var c := Tried(pool, loop, routeKey, turns[..k], cfg);
      if c.verdict.Trying? then Attempt(c, loop, routeKey, turns[k], k, cfg) else c
  }

  /** A call has as many turns as it may take. */
  predicate Complete(turns: seq<Turn>, cfg: ProxyConfig) {
    |turns| == if cfg.maxRetries < 0 then 0 else cfg.maxRetries + 1
  }

  const MAX_REQUEST_BYTES := 32 * 1024 * 1024

  /** `stream` */
  function Stream(
    pool: PoolState, size: nat, refusal: Callback, routeKey: Option<string>, turns: seq<Turn>, cfg: ProxyConfig): Call
  {
    if size > MAX_REQUEST_BYTES then Emit(Call(pool, [], None, Trying), 413, [FixedError], refusal)
    else Tried(pool, Streaming, routeKey, turns, cfg)
  }

  // ---------------------------------------------------------------- no leak

  /** No lease has this id, and none ever will again. */
  predicate Gone(pool: PoolState, id: nat) {
    id < pool.nextId && forall l :: l in pool.leases ==> l.id != id
  }

  lemma {:induction false} BeatAddsNoId(leases: seq<PoolLease>, id: nat, now: real)
    ensures forall l :: l in Beat(leases, id, now) ==> exists m :: m in leases && m.id == l.id
  {
    if leases != [] && leases[0].id != id {
      BeatAddsNoId(leases[1..], id, now);
      assert forall m :: m in leases[1..] ==> m in leases;
    }
  }

  lemma StepStaysGone(policy: PoolPolicy, pool: PoolState, e: PoolEvent, id: nat)
    requires Gone(pool, id)
    ensures Gone(Apply(policy, pool, e), id)
  {
    if e.EvHeartbeat? {
      BeatAddsNoId(pool.leases, e.id, e.w.now);
    }
  }

  lemma {:induction false} StaysGone(policy: PoolPolicy, pool: PoolState, es: seq<PoolEvent>, id: nat)
    requires Gone(pool, id)
    ensures Gone(Run(policy, pool, es), id)
  {
    if es != [] {
      StaysGone(policy, pool, es[..|es| - 1], id);
      StepStaysGone(policy, Run(policy, pool, es[..|es| - 1]), es[|es| - 1], id);
    }
  }

  lemma StepNextIdGrows(policy: PoolPolicy, pool: PoolState, e: PoolEvent)
    ensures Apply(policy, pool, e).nextId >= pool.nextId
  {
  }

  lemma {:induction false} NextIdGrows(policy: PoolPolicy, pool: PoolState, es: seq<PoolEvent>)
    ensures Run(policy, pool, es).nextId >= pool.nextId
  {
    if es != [] {
      NextIdGrows(policy, pool, es[..|es| - 1]);
      StepNextIdGrows(policy, Run(policy, pool, es[..|es| - 1]), es[|es| - 1]);
    }
  }

  lemma SettledStaysGone(pool: PoolState, e: Ending, lease: PoolLease, t: Turn, policy: PoolPolicy, id: nat)
    requires id == lease.id || Gone(pool, id)
    requires id < pool.nextId
    ensures Gone(Settled(pool, e, lease, t, policy), id)
  {
    var mid := Run(policy, pool, t.during);
    var marked := Marked(mid, e.mark, lease.profile, t.reading, t.marking, policy);
    var after := AfterMarks(pool, e, lease.profile, t, policy);
    NextIdGrows(policy, pool, t.during);
    NextIdGrows(policy, marked, t.between);
    NextIdGrows(policy, after, t.after);
    if id != lease.id {
      StaysGone(policy, pool, t.during, id);
      StaysGone(policy, marked, t.between, id);
      StaysGone(policy, after, t.after, id);
    }
  }

  /** Every account the call has taken is given back. */
  predicate NoneHeld(c: Call) {
    forall i :: 0 <= i < |c.acts| && c.acts[i].Reserves? ==> Gone(c.pool, c.acts[i].lease)
  }

  predicate Sends(acts: seq<Act>) {
    forall i :: 0 <= i < |acts| ==> acts[i].Headers? || acts[i].Chunk?
  }

  lemma MoreActsHoldNone(c: Call, more: seq<Act>)
    requires NoneHeld(c) && Sends(more)
    ensures NoneHeld(c.(acts := c.acts + more))
  {
  }

  lemma HandOverSends(d: Decision, t: Turn, last: bool)
    ensures Sends(HandOver(d, t, last).sent)
  {
  }

  lemma EndedHoldsNone(c: Call, lease: PoolLease, t: Turn, d: Decision, e: Ending, policy: PoolPolicy)
    requires NoneHeld(c) && lease.id < c.pool.nextId && Sends(e.sent)
    ensures NoneHeld(Ended(c, lease, t, d, e, policy))
  {
    var taken := c.(pool := Settled(c.pool, e, lease, t, policy), acts := c.acts + Taking(lease, d.opens));
    forall i | 0 <= i < |taken.acts| && taken.acts[i].Reserves? ensures Gone(taken.pool, taken.acts[i].lease) {
      SettledStaysGone(c.pool, e, lease, t, policy, taken.acts[i].lease);
    }
    MoreActsHoldNone(taken, e.sent);
    assert c.acts + (Taking(lease, d.opens) + e.sent) == taken.acts + e.sent;
  }

  lemma UseHoldsNone(c: Call, loop: Loop, lease: PoolLease, t: Turn, last: bool, cfg: ProxyConfig)
    requires NoneHeld(c) && lease.id < c.pool.nextId
    ensures NoneHeld(Use(c, loop, lease, t, last, cfg))
  {
    var d := Decide(loop, t.upstream, last);
    HandOverSends(d, t, last);
    EndedHoldsNone(c, lease, t, d, HandOver(d, t, last), cfg.policy);
  }

  lemma ReservingStaysGone(
    pool: PoolState, loop: Loop, routeKey: Option<string>, t: Turn, k: nat, cfg: ProxyConfig, id: nat)
    requires Gone(pool, id)
    ensures Gone(Reserving(pool, loop, routeKey, t, k, cfg).0, id)
  {
    var st := Run(cfg.policy, pool, t.before);
    StaysGone(cfg.policy, pool, t.before, id);
    if t.fetch.Some? {
      var f := t.fetch.value;
      StepStaysGone(cfg.policy, st, EvReserve(f.profiles, f.usages, TurnRequest(loop, routeKey, k, cfg), t.reserving),
        id);
    }
  }

  lemma AttemptHoldsNone(c: Call, loop: Loop, routeKey: Option<string>, t: Turn, k: nat, cfg: ProxyConfig)
    requires NoneHeld(c)
    ensures NoneHeld(Attempt(c, loop, routeKey, t, k, cfg))
  {
    var (pool, r) := Reserving(c.pool, loop, routeKey, t, k, cfg);
    forall i | 0 <= i < |c.acts| && c.acts[i].Reserves? ensures Gone(pool, c.acts[i].lease) {
      ReservingStaysGone(c.pool, loop, routeKey, t, k, cfg, c.acts[i].lease);
    }
    if r.Reserved? {
      UseHoldsNone(c.(pool := pool), loop, r.lease, t, k >= cfg.maxRetries, cfg);
    } else if c.kept.Some? {
      MoreActsHoldNone(
        c.(pool := pool), Calls(c.kept.value.status, [c.kept.value.body], Used(loop, t.callback)));
    }
  }

  /** No leak. After any number of turns, however the call ends, no lease it took is in the pool, or ever will be. */
  lemma {:induction false} NoLeaseIsLeaked(
    pool: PoolState, loop: Loop, routeKey: Option<string>, turns: seq<Turn>, cfg: ProxyConfig)
    ensures NoneHeld(Tried(pool, loop, routeKey, turns, cfg))
  {
    if turns != [] {
      var k := |turns| - 1;
      NoLeaseIsLeaked(pool, loop, routeKey, turns[..k], cfg);
      AttemptHoldsNone(Tried(pool, loop, routeKey, turns[..k], cfg), loop, routeKey, turns[k], k, cfg);
    }
  }
}
