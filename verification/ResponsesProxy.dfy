/** The proxy object of pool_responses.py: its two loops over the shared coordinator, proved against Failover. */
module Proxy {
  import opened Wrappers
  import opened Spec = Pool
  import opened Coordinator
  import F = Failover
  import opened Failover
  import opened StreamedResponse

  /** `ProxyResponse`: the one status and the chunks put together. */
  datatype ProxyResponse = ProxyResponse(status: int, chunks: seq<Body>)

  /** The response a caller reads off what was sent: `metadata[0]` and all chunks. */
  function ReadResponse(acts: seq<Act>): Option<ProxyResponse> {
    if acts == [] then None
    else
      var front, last := ReadResponse(acts[..|acts| - 1]), acts[|acts| - 1];
      match last
      case Headers(status) => if front.Some? then front else Some(ProxyResponse(status, []))
      case Chunk(body) => if front.Some? then Some(front.value.(chunks := front.value.chunks + [body])) else None
      case _ => front
  }

  lemma {:induction false} SilentReadsNothing(acts: seq<Act>)
    requires Silent(acts)
    ensures ReadResponse(acts) == None
  {
    if acts != [] {
      assert forall i :: 0 <= i < |acts| - 1 ==> acts[..|acts| - 1][i] == acts[i];
      SilentReadsNothing(acts[..|acts| - 1]);
    }
  }

  /** What is emitted is what the caller reads: that status and those chunks, none lost and none added. */
  lemma {:induction false} EmitReads(c: Call, status: int, bodies: seq<Body>)
    requires Silent(c.acts)
    ensures ReadResponse(Emit(c, status, bodies, Works).acts) == Some(ProxyResponse(status, bodies))
  {
    var acts := Emit(c, status, bodies, Works).acts;
    if bodies == [] {
      assert acts == c.acts + [Headers(status)] && acts[..|c.acts|] == c.acts;
      SilentReadsNothing(c.acts);
    } else {
      var front, last := bodies[..|bodies| - 1], bodies[|bodies| - 1];
      EmitReads(c, status, front);
      assert acts[..|acts| - 1] == Emit(c, status, front, Works).acts;
      assert acts[|acts| - 1] == Chunk(last);
      assert front + [last] == bodies;
    }
  }

  /**
   * How the inner block of a streamed turn ends: it may leave an error to the outer handler, before or after it has
   * begun to relay, and before or after it has marked the account.
   */
  datatype Inner = Continues(kept: Option<Kept>) | Done | Caught(reason: string, headersSent: bool,
    marked: bool) | Uncaught

  class PoolResponsesProxy {
    const cfg: ProxyConfig
    const coordinator: PoolCoordinator
    /** What the call under way has done so far. */
    var acts: seq<Act>

    constructor (cfg: ProxyConfig, coordinator: PoolCoordinator)
      requires coordinator.policy == cfg.policy
      ensures this.cfg == cfg && this.coordinator == coordinator && acts == []
    {
      this.cfg := cfg;
      this.coordinator := coordinator;
      acts := [];
    }

    /** The steps other threads and processes take meanwhile. */
    method Others(es: seq<PoolEvent>)
      requires coordinator.policy == cfg.policy
      modifies coordinator
      ensures coordinator.file == Run(cfg.policy, old(coordinator.file), es)
    {
      for i := 0 to |es|
        invariant coordinator.file == Run(cfg.policy, old(coordinator.file), es[..i])
      {
        assert es[..i + 1][..i] == es[..i];
        coordinator.file := Apply(cfg.policy, coordinator.file, es[i]);
      }
      assert es[..|es|] == es;
    }

    method ReserveAccount(loop: Loop, routeKey: Option<string>, t: Turn, k: nat) returns (r: ReserveResult)
      requires coordinator.policy == cfg.policy
      modifies coordinator
      ensures (coordinator.file, r) == Reserving(old(coordinator.file), loop, routeKey, t, k, cfg)
    {
      Others(t.before);
      if t.fetch.None? {
        return NoAccount;
      }
      r := coordinator.Reserve(
        t.fetch.value.profiles, t.fetch.value.usages, TurnRequest(loop, routeKey, k, cfg), t.reserving);
    }

    /** `on_headers`, then `on_chunk` for each chunk, until a call raises. */
    method EmitResponse(status: int, bodies: seq<Body>, callback: Callback) returns (broken: bool)
      modifies this`acts
      ensures acts == old(acts) + Calls(status, bodies, callback)
      ensures broken == BreaksIn(callback, bodies)
    {
      acts := acts + [Headers(status)];
      ghost var sent := acts;
      for i := 0 to |bodies|
        invariant acts == sent + Chunks(bodies[..i])
        invariant callback.Breaks? ==> i <= callback.at
      {
        if callback.Breaks? && callback.at == i {
          return true;
        }
        assert Chunks(bodies[..i + 1]) == Chunks(bodies[..i]) + [Chunk(bodies[i])];
        acts := acts + [Chunk(bodies[i])];
      }
      assert bodies[..|bodies|] == bodies;
      return callback.Breaks? && callback.at == |bodies|;
    }

    ghost function FirstMarked(pool: PoolState, mark: Option<Mark>, profile: string, t: Turn): PoolState {
      F.Marked(Run(cfg.policy, pool, t.during), mark, profile, t.reading, t.marking, cfg.policy)
    }

    /** The open request, as both loops handle a refusal: marked if it is to be retried, and kept or passed on. */
    method RefusedWith(
      profile: string, status: int, body: string, fingerprint: Option<string>, t: Turn, last: bool, via: Handover)
      returns (next: Next)
      requires coordinator.policy == cfg.policy
      requires fingerprint == t.reading.Fingerprint(profile)
      modifies coordinator
      ensures var d := if status in RETRYABLE then Rejected(StatusKind(status), status, Bytes(body), last, via)
                       else Decision(true, None, Final(status, [Bytes(body)], via));
        && next == d.next
        && coordinator.file == F.Marked(old(coordinator.file), d.mark, profile, t.reading, t.marking, cfg.policy)
    {
      if status in RETRYABLE && !last {
        coordinator.MarkFailure(profile, StatusKind(status), fingerprint, t.marking);
        return Again(Some(Kept(status, Bytes(body))));
      }
      if status in RETRYABLE {
        coordinator.MarkFailure(profile, StatusKind(status), fingerprint, t.marking);
      }
      return Final(status, [Bytes(body)], via);
    }

    method FailedWith(
      profile: string, kind: string, fingerprint: Option<string>, status: int, body: Body, t: Turn, last: bool,
        via: Handover)
      returns (next: Next)
      requires coordinator.policy == cfg.policy
      modifies coordinator
      ensures next == if last then Final(status, [body], via) else Again(None)
      ensures coordinator.file == MarkFailure(old(coordinator.file), cfg.policy, profile, kind, fingerprint, t.marking)
    {
      coordinator.MarkFailure(profile, kind, fingerprint, t.marking);
      return if last then Final(status, [body], via) else Again(None);
    }

    /** An inner handler has marked the account; the turn is over, or its response is sent. */
    method Finish(next: Next, t: Turn) returns (inner: Inner)
      modifies this`acts
      ensures next.Again? ==> inner == Continues(next.kept) && acts == old(acts)
      ensures next.Final? ==>
        && acts == old(acts) + Calls(next.status, next.chunks, t.callback)
        && inner == (if !BreaksIn(t.callback, next.chunks) then Done
                     else if t.callback.caught then Caught(t.callback.reason, false, true) else Uncaught)
    {
      match next
      case Again(kept) => return Continues(kept);
      case Final(status, bodies, _) =>
        var broken := EmitResponse(status, bodies, t.callback);
        return if !broken then Done else if t.callback.caught then Caught(t.callback.reason, false, true) else Uncaught;
    }

    /** The answer is relayed while it is read, and then counts as a success. */
    method Relay(profile: string, t: Turn) returns (inner: Inner)
      requires coordinator.policy == cfg.policy && t.upstream.Answered?
      modifies this`acts, coordinator
      ensures acts == old(acts) + Calls(t.upstream.status, AllBytes(t.upstream.chunks), t.callback)
      ensures coordinator.file
        == if inner.Done? then MarkSuccess(old(coordinator.file), profile, t.marking) else old(coordinator.file)
      ensures inner == (if BreaksIn(t.callback, AllBytes(t.upstream.chunks)) then
                          if t.callback.caught then Caught(t.callback.reason, true, false) else Uncaught
                        else if t.upstream.breaks then Caught(t.upstream.reason, true, false) else Done)
    {
      var broken := EmitResponse(t.upstream.status, AllBytes(t.upstream.chunks), t.callback);
      if broken {
        return if t.callback.caught then Caught(t.callback.reason, true, false) else Uncaught;
      }
      if t.upstream.breaks {
        return Caught(t.upstream.reason, true, false);
      }
      coordinator.MarkSuccess(profile, t.marking);
      return Done;
    }

    /** The open request of `stream`, without its outer handler. */
    method OpenStream(profile: string, t: Turn, last: bool) returns (inner: Inner)
      requires coordinator.policy == cfg.policy
      modifies this`acts, coordinator
      ensures InnerIs(inner, profile, t, last, old(acts), old(coordinator.file), acts, coordinator.file)
    {
      Others(t.during);
      var fingerprint := t.reading.Fingerprint(profile);
      var next;
      if t.upstream.NoToken? {
        next := FailedWith(profile, "auth", fingerprint, 503, FixedError, t, last, InHandler);
        inner := Finish(next, t);
        return;
      }
      acts := acts + [Opens(profile)];
      match t.upstream
      case Unreachable(_) =>
        next := FailedWith(profile, "network", fingerprint, 502, FixedError, t, last, InHandler);
        inner := Finish(next, t);
      case Refused(_, None, reason) => inner := Caught(reason, false, false);
      case Refused(status, Some(body), _) =>
        next := RefusedWith(profile, status, body, fingerprint, t, last, InHandler);
        inner := Finish(next, t);
      case Answered(status, body, chunks, breaks, reason) =>
        if status !in RETRYABLE || last {
          inner := Relay(profile, t);
        } else if body.None? {
          inner := Caught(reason, false, false);
        } else {
          next := RefusedWith(profile, status, body.value, fingerprint, t, last, InHandler);
          inner := Finish(next, t);
        }
    }

    /** What the inner block has done, and what it leaves to do, of the ending of its turn. */
    ghost predicate InnerIs(
      inner: Inner, profile: string, t: Turn, last: bool, acts0: seq<Act>, pool: PoolState, acts1: seq<Act>,
        after: PoolState)
    {
      var d := Decide(Streaming, t.upstream, last);
      var e, start := HandOver(d, t, last), acts0 + if d.opens then [Opens(profile)] else [];
      match inner
      case Continues(kept) => d.next == Again(kept) && acts1 == start && after == FirstMarked(pool, e.mark, profile, t)
      case Done =>
        && d.next.Final? && e == Ending(d.mark, false, e.sent, Returned)
        && acts1 == start + e.sent && after == FirstMarked(pool, e.mark, profile, t)
      case Uncaught =>
        && d.next.Final? && e == Ending(e.mark, false, e.sent, Interrupted)
        && acts1 == start + e.sent && after == FirstMarked(pool, e.mark, profile, t)
      case Caught(_, true, marked) =>
        && !marked && d.next.Final? && e == Ending(Some(Fails("network")), false, e.sent, Returned)
        && acts1 == start + e.sent && after == FirstMarked(pool, None, profile, t)
      case Caught(reason, false, true) =>
        && Relapses(d, t) && reason == t.callback.reason
        && acts1 == start + Calls(d.next.status, d.next.chunks, t.callback)
        && after == FirstMarked(pool, e.mark, profile, t)
      case Caught(reason, false, false) =>
        && d == Broken("network", true, 502, ErrorReport(reason), last, InOuterHandler)
        && acts1 == start && after == FirstMarked(pool, None, profile, t)
    }

    /** A streamed turn with its account. The outer handler takes an error for one of the account. */
    method StreamWith(profile: string, t: Turn, last: bool) returns (verdict: Verdict, newer: Option<Kept>)
      requires coordinator.policy == cfg.policy
      modifies this`acts, coordinator
      ensures var d := Decide(Streaming, t.upstream, last);
        var e := HandOver(d, t, last);
        && verdict == e.verdict && newer == (if d.next.Again? then d.next.kept else None)
        && acts == old(acts) + (if d.opens then [Opens(profile)] else []) + e.sent
        && coordinator.file == F.AfterMarks(old(coordinator.file), e, profile, t, cfg.policy)
    {
      var inner := OpenStream(profile, t, last);
      match inner
      case Continues(kept) => return Trying, kept;
      case Done => return Returned, None;
      case Uncaught => return Interrupted, None;
      case Caught(reason, headersSent, marked) =>
        if marked {
          Others(t.between);
        }
        coordinator.MarkFailure(
          profile, "network", t.reading.Fingerprint(profile), if marked then t.remarking else t.marking);
        if !headersSent && !last {
          return Trying, None;
        }
        if !headersSent {
          var broken := EmitResponse(502, [ErrorReport(reason)], if marked then t.again else t.callback);
          if broken {
            return Interrupted, None;
          }
        }
        return Returned, None;
    }

    /** The open request of `forward_models`, which reads an answer whole before it looks at the status. */
    method OpenModels(profile: string, t: Turn, last: bool) returns (next: Next)
      requires coordinator.policy == cfg.policy
      modifies this`acts, coordinator
      ensures var d := Decide(Models, t.upstream, last);
        && next == d.next && (next.Final? ==> next.via.Returning?)
        && acts == old(acts) + (if d.opens then [Opens(profile)] else [])
        && coordinator.file == FirstMarked(old(coordinator.file), d.mark, profile, t)
    {
      Others(t.during);
      var fingerprint := t.reading.Fingerprint(profile);
      if t.upstream.NoToken? {
        next := FailedWith(profile, "auth", fingerprint, 503, FixedError, t, last, Returning);
        return;
      }
      acts := acts + [Opens(profile)];
      match t.upstream
      case Unreachable(_) => next := FailedWith(profile, "network", fingerprint, 502, FixedError, t, last, Returning);
      case Refused(_, None, _) => next := FailedWith(profile, "network", fingerprint, 502, FixedError, t, last,
        Returning);
      case Refused(status, Some(body), _) => next := RefusedWith(profile, status, body, fingerprint, t, last,
        Returning);
      case Answered(_, None, _, _, _) =>
        next := FailedWith(profile, "network", fingerprint, 502, FixedError, t, last, Returning);
      case Answered(status, Some(body), _, _, _) =>
        if status in RETRYABLE {
          next := RefusedWith(profile, status, body, fingerprint, t, last, Returning);
        } else {
          coordinator.MarkSuccess(profile, t.marking);
          next := Final(status, [Bytes(body)], Returning);
        }
    }

    /** The loop both calls share. Whatever the open request comes to, its lease is released before the next turn. */
    method Try(loop: Loop, routeKey: Option<string>, turns: seq<Turn>) returns (verdict: Verdict)
      requires coordinator.policy == cfg.policy && Complete(turns, cfg) && acts == []
      modifies this, coordinator
      ensures var c := Tried(old(coordinator.file), loop, routeKey, turns, cfg);
        verdict == c.verdict && acts == c.acts && coordinator.file == c.pool
    {
      var kept: Option<Kept> := None;
      ghost var start := coordinator.file;
      for attempt := 0 to |turns|
        invariant Call(coordinator.file, acts, kept, Trying) == Tried(start, loop, routeKey, turns[..attempt], cfg)
      {
        TriedNext(start, loop, routeKey, turns, attempt);
        verdict, kept := OneTurn(loop, routeKey, turns[attempt], attempt, kept);
        if verdict != Trying {
          TriedIsOver(start, loop, routeKey, turns, attempt + 1, cfg);
          return;
        }
      }
      assert turns[..|turns|] == turns;
      return Trying;
    }

    method OneTurn(loop: Loop, routeKey: Option<string>, t: Turn, k: nat, kept: Option<Kept>)
      returns (verdict: Verdict, kept': Option<Kept>)
      requires coordinator.policy == cfg.policy
      modifies this, coordinator
      ensures Call(coordinator.file, acts, kept', verdict)
        == Attempt(old(Call(coordinator.file, acts, kept, Trying)), loop, routeKey, t, k, cfg)
    {
      kept' := kept;
      var r := ReserveAccount(loop, routeKey, t, k);
      var broken;
      if !r.Reserved? {
        if kept.None? {
          return Raised, None;
        }
        broken := EmitResponse(kept.value.status, [kept.value.body], Used(loop, t.callback));
        return if broken then Interrupted else Returned, kept;
      }
      verdict, kept' := TurnWith(loop, r.lease, t, k >= cfg.maxRetries, kept);
    }

    /** A turn with its account, which is released whatever comes of it. */
    method TurnWith(loop: Loop, lease: PoolLease, t: Turn, last: bool, kept: Option<Kept>)
      returns (verdict: Verdict, kept': Option<Kept>)
      requires coordinator.policy == cfg.policy
      modifies this`acts, coordinator
      ensures Call(coordinator.file, acts, kept', verdict)
        == Use(old(Call(coordinator.file, acts, kept, Trying)), loop, lease, t, last, cfg)
    {
      ghost var d, before := Decide(loop, t.upstream, last), acts;
      acts := acts + [Reserves(lease.id, lease.profile)];
      var newer;
      verdict, newer := UseAccount(loop, lease.profile, t, last);
      TakenThenSent(before, lease, d.opens, HandOver(d, t, last).sent);
      Others(t.after);
      coordinator.Release(lease.id);
      kept' := if newer.Some? then newer else kept;
    }

    lemma TakenThenSent(before: seq<Act>, lease: PoolLease, opens: bool, sent: seq<Act>)
      ensures before + [Reserves(lease.id, lease.profile)] + (if opens then [Opens(lease.profile)] else []) + sent
        == before + (Taking(lease, opens) + sent)
    {
    }

    method UseAccount(loop: Loop, profile: string, t: Turn, last: bool) returns (verdict: Verdict, newer: Option<Kept>)
      requires coordinator.policy == cfg.policy
      modifies this`acts, coordinator
      ensures var d := Decide(loop, t.upstream, last);
        var e := HandOver(d, t, last);
        && verdict == e.verdict && newer == (if d.next.Again? then d.next.kept else None)
        && acts == old(acts) + (if d.opens then [Opens(profile)] else []) + e.sent
        && coordinator.file == F.AfterMarks(old(coordinator.file), e, profile, t, cfg.policy)
    {
      if loop.Streaming? {
        verdict, newer := StreamWith(profile, t, last);
        return;
      }
      var next := OpenModels(profile, t, last);
      match next
      case Again(kept) => return Trying, kept;
      case Final(status, bodies, _) =>
        var _ := EmitResponse(status, bodies, Works);
        return Returned, None;
    }

    lemma TriedNext(pool: PoolState, loop: Loop, routeKey: Option<string>, turns: seq<Turn>, k: nat)
      requires k < |turns| && Tried(pool, loop, routeKey, turns[..k], cfg).verdict.Trying?
      ensures Tried(pool, loop, routeKey, turns[..k + 1], cfg)
        == Attempt(Tried(pool, loop, routeKey, turns[..k], cfg), loop, routeKey, turns[k], k, cfg)
    {
      assert turns[..k + 1][..k] == turns[..k];
    }

    lemma {:induction false} TriedIsOver(
      pool: PoolState, loop: Loop, routeKey: Option<string>, turns: seq<Turn>, n: nat, cfg: ProxyConfig)
      requires n <= |turns| && !Tried(pool, loop, routeKey, turns[..n], cfg).verdict.Trying?
      ensures Tried(pool, loop, routeKey, turns, cfg) == Tried(pool, loop, routeKey, turns[..n], cfg)
    {
      if n == |turns| {
        assert turns[..n] == turns;
      } else {
        var front := turns[..|turns| - 1];
        assert front[..n] == turns[..n];
        TriedIsOver(pool, loop, routeKey, front, n, cfg);
      }
    }

    /** `stream` */
    method StreamRequest(
      size: nat, refusal: Callback, routeKey: Option<string>, turns: seq<Turn>) returns (verdict: Verdict)
      requires coordinator.policy == cfg.policy && Complete(turns, cfg)
      modifies this, coordinator
      ensures var c := F.Stream(old(coordinator.file), size, refusal, routeKey, turns, cfg);
        verdict == c.verdict && acts == c.acts && coordinator.file == c.pool
    {
      acts := [];
      if size > MAX_REQUEST_BYTES {
        var broken := EmitResponse(413, [FixedError], refusal);
        return if broken then Interrupted else Returned;
      }
      verdict := Try(Streaming, routeKey, turns);
    }

    /**
     * `forward`: the streamed response in one piece, its callbacks two lists that grow. None when the error is
     * raised; the response made up here is used only when the call may take no turn at all.
     */
    method Forward(size: nat, routeKey: Option<string>, turns: seq<Turn>) returns (response: Option<ProxyResponse>)
      requires coordinator.policy == cfg.policy && Complete(turns, cfg) && AllWork(turns)
      modifies this, coordinator
      ensures var c := F.Stream(old(coordinator.file), size, Works, routeKey, turns, cfg);
        && coordinator.file == c.pool
        && response == (if c.verdict.Raised? then None
                        else if c.verdict.Returned? then ReadResponse(c.acts)
                        else Some(ProxyResponse(502, [FixedError])))
    {
      ghost var pool := coordinator.file;
      var verdict := StreamRequest(size, Works, routeKey, turns);
      StreamSendsOneResponse(pool, size, routeKey, turns, cfg);
      if verdict == Raised {
        return None;
      }
      response := ReadResponse(acts);
      if verdict == Returned {
        OneResponseReads(acts);
      } else {
        SilentReadsNothing(acts);
      }
      if response.None? {
        return Some(ProxyResponse(502, [FixedError]));
      }
    }

    lemma OneResponseReads(acts: seq<Act>)
      requires OneResponse(acts)
      ensures ReadResponse(acts).Some?
    {
      var h :| 0 <= h < |acts| && acts[h].Headers? && Silent(acts[..h])
        && forall i :: h < i < |acts| ==> acts[i].Chunk?;
      var bodies := seq(|acts| - h - 1, i requires 0 <= i < |acts| - h - 1 => acts[h + 1 + i].body);
      var c := Call(EMPTY_POOL, acts[..h], None, Trying);
      assert acts == Emit(c, acts[h].status, bodies, Works).acts;
      EmitReads(c, acts[h].status, bodies);
    }

    /** `forward_models` */
    method ForwardModels(turns: seq<Turn>) returns (response: Option<ProxyResponse>)
      requires coordinator.policy == cfg.policy && Complete(turns, cfg)
      modifies this, coordinator
      ensures var c := Tried(old(coordinator.file), Models, None, turns, cfg);
        && coordinator.file == c.pool
        && response == (if c.verdict.Raised? then None
                        else if c.verdict.Returned? then ReadResponse(c.acts)
                        else Some(ProxyResponse(502, [FixedError])))
    {
      acts := [];
      var verdict := Try(Models, None, turns);
      match verdict
      case Raised => return None;
      case Returned => return ReadResponse(acts);
      case _ => return Some(ProxyResponse(502, [FixedError]));
    }
  }
}
