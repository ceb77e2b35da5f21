/** What a client is sent, and what an account is marked with: read off what the upstream answered, turn by turn. */
module RelayedContent {
  import opened Wrappers
  import opened Pool
  import F = PoolFairness
  import opened PoolHealthRuns
  import opened Failover
  import opened StreamedResponse
  import opened Proxy

  // ---------------------------------------------------------------- one turn

  /** The statuses for which another account is tried. */
  predicate WorthRetrying(status: int) {
    status in [401, 403, 408, 409, 429] || status == 500 || 502 <= status <= 504
  }

  /** These acts tell a response: its status, then these texts in order, one chunk each. */
  predicate Tells(sent: seq<Act>, status: int, texts: seq<string>) {
    && |sent| == |texts| + 1 && sent[0] == Headers(status)
    && forall i :: 0 <= i < |texts| ==> sent[i + 1] == Chunk(Bytes(texts[i]))
  }

  /** The call goes on to another account, having sent nothing. */
  predicate GoesOn(after: Call, sent: seq<Act>, kept: Option<Kept>) {
    after.verdict.Trying? && sent == [] && after.kept == kept
  }

  /** The call is over, and this response was sent. */
  predicate Answers(after: Call, sent: seq<Act>, status: int, texts: seq<string>) {
    after.verdict.Returned? && Tells(sent, status, texts)
  }

  predicate Reports(after: Call, sent: seq<Act>, status: int, body: Body) {
    after.verdict.Returned? && sent == [Headers(status), Chunk(body)]
  }

  /** What a streamed turn with an account sends, by what came of its request. */
  predicate StreamedTurn(c: Call, t: Turn, last: bool, after: Call, sent: seq<Act>) {
    match t.upstream
    case NoToken => if last then Reports(after, sent, 503, FixedError) else GoesOn(after, sent, c.kept)
    case Unreachable(_) => if last then Reports(after, sent, 502, FixedError) else GoesOn(after, sent, c.kept)
    case Refused(_, None, reason) =>
      if last then Reports(after, sent, 502, ErrorReport(reason)) else GoesOn(after, sent, c.kept)
    case Refused(status, Some(body), _) =>
      if last || !WorthRetrying(status) then Answers(after, sent, status, [body])
      else GoesOn(after, sent, Some(Kept(status, Bytes(body))))
    case Answered(status, body, chunks, _, _) =>
      if last || !WorthRetrying(status) then Answers(after, sent, status, chunks)
      else GoesOn(after, sent, if body.Some? then Some(Kept(status, Bytes(body.value))) else c.kept)
  }

  /** The same for a turn of the model listing, which reads an answer whole. */
  predicate ListingTurn(c: Call, t: Turn, last: bool, after: Call, sent: seq<Act>) {
    match t.upstream
    case NoToken => if last then Reports(after, sent, 503, FixedError) else GoesOn(after, sent, c.kept)
    case Refused(status, Some(body), _) =>
      if last || !WorthRetrying(status) then Answers(after, sent, status, [body])
      else GoesOn(after, sent, Some(Kept(status, Bytes(body))))
    case Answered(status, Some(body), _, _, _) =>
      if last || !WorthRetrying(status) then Answers(after, sent, status, [body])
      else GoesOn(after, sent, Some(Kept(status, Bytes(body))))
    case _ => if last then Reports(after, sent, 502, FixedError) else GoesOn(after, sent, c.kept)
  }

  /** The account taken, and opened unless it has no token. */
  function Begins(lease: PoolLease, t: Turn): seq<Act> {
    if t.upstream.NoToken? then [Reserves(lease.id, lease.profile)]
    else [Reserves(lease.id, lease.profile), Opens(lease.profile)]
  }

  lemma HandsOver(loop: Loop, t: Turn, last: bool)
    requires loop.Streaming? ==> t.callback.Works?
    ensures var d := Decide(loop, t.upstream, last);
      var e := HandOver(d, t, last);
      && d.opens == !t.upstream.NoToken?
      && (match d.next
          case Again(_) => e.verdict.Trying? && e.sent == []
          case Final(status, bodies, _) => e.verdict.Returned? && e.sent == [Headers(status)] + Chunks(bodies))
  {
  }

  /** How the call stands after a turn that ends so. */
  predicate EndsSo(c: Call, d: Decision, e: Ending, after: Call) {
    && after.kept == (if d.next.Again? && d.next.kept.Some? then d.next.kept else c.kept)
    && after.verdict == e.verdict
  }

  lemma StreamSends(c: Call, t: Turn, last: bool, after: Call)
    requires t.callback.Works?
    requires var d := Decide(Streaming, t.upstream, last); EndsSo(c, d, HandOver(d, t, last), after)
    ensures StreamedTurn(c, t, last, after, HandOver(Decide(Streaming, t.upstream, last), t, last).sent)
  {
    HandsOver(Streaming, t, last);
  }

  lemma ListingSends(c: Call, t: Turn, last: bool, after: Call)
    requires var d := Decide(Models, t.upstream, last); EndsSo(c, d, HandOver(d, t, last), after)
    ensures ListingTurn(c, t, last, after, HandOver(Decide(Models, t.upstream, last), t, last).sent)
  {
    HandsOver(Models, t, last);
  }

  lemma TurnEndsSo(c: Call, loop: Loop, lease: PoolLease, t: Turn, last: bool, cfg: ProxyConfig)
    ensures var after, d := Use(c, loop, lease, t, last, cfg), Decide(loop, t.upstream, last);
      && EndsSo(c, d, HandOver(d, t, last), after)
      && after.acts == c.acts + (Taking(lease, d.opens) + HandOver(d, t, last).sent)
  {
  }

  /** What is sent in a turn with an account, and what is left to be sent. */
  lemma TurnSends(c: Call, loop: Loop, lease: PoolLease, t: Turn, last: bool, cfg: ProxyConfig) returns (sent: seq<Act>)
    requires loop.Streaming? ==> t.callback.Works?
    ensures var after := Use(c, loop, lease, t, last, cfg);
      && after.acts == c.acts + Begins(lease, t) + sent
      && (if loop.Streaming? then StreamedTurn(c, t, last, after, sent) else ListingTurn(c, t, last, after, sent))
  {
    var d := Decide(loop, t.upstream, last);
    sent := HandOver(d, t, last).sent;
    TurnEndsSo(c, loop, lease, t, last, cfg);
    HandsOver(loop, t, last);
    assert Taking(lease, d.opens) == Begins(lease, t);
    var after := Use(c, loop, lease, t, last, cfg);
    if loop.Streaming? {
      StreamSends(c, t, last, after);
    } else {
      ListingSends(c, t, last, after);
    }
  }

  // ---------------------------------------------------------------- when accounts run out

  /** The rejected answer of a turn that is worth retrying, as far as it could be read. */
  function Rejection(up: Upstream): Option<(int, string)> {
    match up
    case Refused(status, Some(body), _) => if WorthRetrying(status) then Some((status, body)) else None
    case Answered(status, Some(body), _, _, _) => if WorthRetrying(status) then Some((status, body)) else None
    case _ => None
  }

  /** The last of them. */
  function LastRejection(turns: seq<Turn>): Option<(int, string)> {
    if turns == [] then None
    else
      var now := Rejection(turns[|turns| - 1].upstream);
      if now.Some? then now else LastRejection(turns[..|turns| - 1])
  }

  predicate AllWorkFor(loop: Loop, turns: seq<Turn>) {
    loop.Streaming? ==> AllWork(turns)
  }

  function AsKept(rejection: Option<(int, string)>): Option<Kept> {
    if rejection.Some? then Some(Kept(rejection.value.0, Bytes(rejection.value.1))) else None
  }

  /** What a call keeps while it goes on: the last rejected answer; and it has sent nothing. */
  lemma {:induction false} KeepsLastRejection(
    pool: PoolState, loop: Loop, routeKey: Option<string>, turns: seq<Turn>, cfg: ProxyConfig)
    requires AllWorkFor(loop, turns)
    ensures var c := Tried(pool, loop, routeKey, turns, cfg);
      c.verdict.Trying? ==> c.kept == AsKept(LastRejection(turns)) && Silent(c.acts)
  {
    if turns != [] {
      var k := |turns| - 1;
      assert forall i :: 0 <= i < k ==> turns[..k][i] == turns[i];
      KeepsLastRejection(pool, loop, routeKey, turns[..k], cfg);
      var c := Tried(pool, loop, routeKey, turns[..k], cfg);
      if c.verdict.Trying? {
        GoingOnKeeps(c, loop, routeKey, turns[k], k, cfg);
      }
    }
  }

  function NewerRejection(t: Turn, kept: Option<Kept>): Option<Kept> {
    if Rejection(t.upstream).Some? then AsKept(Rejection(t.upstream)) else kept
  }

  lemma StreamGoesOn(c: Call, t: Turn, last: bool, after: Call, sent: seq<Act>)
    requires StreamedTurn(c, t, last, after, sent) && after.verdict.Trying?
    ensures sent == [] && after.kept == NewerRejection(t, c.kept)
  {
  }

  lemma ListingGoesOn(c: Call, t: Turn, last: bool, after: Call, sent: seq<Act>)
    requires ListingTurn(c, t, last, after, sent) && after.verdict.Trying?
    ensures sent == [] && after.kept == NewerRejection(t, c.kept)
  {
  }

  lemma GoingOnUses(c: Call, loop: Loop, lease: PoolLease, t: Turn, last: bool, cfg: ProxyConfig)
    requires Silent(c.acts) && (loop.Streaming? ==> t.callback.Works?)
    ensures var after := Use(c, loop, lease, t, last, cfg);
      after.verdict.Trying? ==> Silent(after.acts) && after.kept == NewerRejection(t, c.kept)
  {
    var sent := TurnSends(c, loop, lease, t, last, cfg);
    var after := Use(c, loop, lease, t, last, cfg);
    if after.verdict.Trying? {
      if loop.Streaming? {
        StreamGoesOn(c, t, last, after, sent);
      } else {
        ListingGoesOn(c, t, last, after, sent);
      }
      assert after.acts == c.acts + Begins(lease, t);
    }
  }

  lemma GoingOnKeeps(c: Call, loop: Loop, routeKey: Option<string>, t: Turn, k: nat, cfg: ProxyConfig)
    requires c.verdict.Trying? && Silent(c.acts) && (loop.Streaming? ==> t.callback.Works?)
    ensures var after := Attempt(c, loop, routeKey, t, k, cfg);
      after.verdict.Trying? ==> Silent(after.acts) && after.kept == NewerRejection(t, c.kept)
  {
    var (pool, r) := Reserving(c.pool, loop, routeKey, t, k, cfg);
    if r.Reserved? {
      GoingOnUses(c.(pool := pool), loop, r.lease, t, k >= cfg.maxRetries, cfg);
    }
  }

  /** Without an account the client gets the last rejected answer, or nothing and an error. */
  lemma RunsOut(
    c: Call, loop: Loop, routeKey: Option<string>, t: Turn, k: nat, cfg: ProxyConfig, rejected: Option<(int, string)>)
    returns (sent: seq<Act>)
    requires c.verdict.Trying? && c.kept == AsKept(rejected) && (loop.Streaming? ==> t.callback.Works?)
    requires !Reserving(c.pool, loop, routeKey, t, k, cfg).1.Reserved?
    ensures var after := Attempt(c, loop, routeKey, t, k, cfg);
      && after.acts == c.acts + sent
      && (if rejected.Some? then Answers(after, sent, rejected.value.0, [rejected.value.1])
          else after.verdict.Raised? && sent == [])
  {
    sent := if rejected.Some? then Calls(rejected.value.0, [Bytes(rejected.value.1)], Works) else [];
  }

  // ---------------------------------------------------------------- the whole call

  /** The turn in which a call ends. */
  lemma {:induction false} EndsInTurn(
    pool: PoolState, loop: Loop, routeKey: Option<string>, turns: seq<Turn>, cfg: ProxyConfig) returns (k: nat)
    requires !Tried(pool, loop, routeKey, turns, cfg).verdict.Trying?
    ensures k < |turns|
    ensures var c := Tried(pool, loop, routeKey, turns[..k], cfg);
      c.verdict.Trying?
      && Tried(pool, loop, routeKey, turns, cfg) == Attempt(c, loop, routeKey, turns[k], k, cfg)
  {
    k := |turns| - 1;
    if !Tried(pool, loop, routeKey, turns[..k], cfg).verdict.Trying? {
      var front := turns[..k];
      k := EndsInTurn(pool, loop, routeKey, front, cfg);
      assert front[..k] == turns[..k];
    }
  }

  /**
   * What the client gets from a call, streamed or not, when its callbacks work. Nothing is sent before the call ends.
   * It ends in a turn that gets no account, and then the client gets the last rejected answer of the turns before, if
   * there is one; or in a turn with an account, and then what came of its request: the status and all chunks of an
   * answer, in order, the status and body of a refusal, or an error of its own.
   */
  lemma ClientGetsAnswer(pool: PoolState, loop: Loop, routeKey: Option<string>, turns: seq<Turn>, cfg: ProxyConfig)
    returns (k: nat, before: seq<Act>, sent: seq<Act>)
    requires AllWorkFor(loop, turns) && !Tried(pool, loop, routeKey, turns, cfg).verdict.Trying?
    ensures k < |turns| && Silent(before)
    ensures var c, after := Tried(pool, loop, routeKey, turns[..k], cfg), Tried(pool, loop, routeKey, turns, cfg);
      var r := Reserving(c.pool, loop, routeKey, turns[k], k, cfg).1;
      && c.verdict.Trying? && after.acts == before + sent
      && (if !r.Reserved? then
            var rejected := LastRejection(turns[..k]);
            before == c.acts
            && (if rejected.Some? then Answers(after, sent, rejected.value.0, [rejected.value.1])
                else after.verdict.Raised? && sent == [])
          else
            before == c.acts + Begins(r.lease, turns[k])
            && (if loop.Streaming? then StreamedTurn(c, turns[k], k >= cfg.maxRetries, after, sent)
                else ListingTurn(c, turns[k], k >= cfg.maxRetries, after, sent)))
  {
    k := EndsInTurn(pool, loop, routeKey, turns, cfg);
    assert forall i :: 0 <= i < k ==> turns[..k][i] == turns[i];
    KeepsLastRejection(pool, loop, routeKey, turns[..k], cfg);
    var c := Tried(pool, loop, routeKey, turns[..k], cfg);
    before, sent := AttemptTells(c, loop, routeKey, turns[k], k, cfg, LastRejection(turns[..k]));
  }

  lemma AttemptTells(
    c: Call, loop: Loop, routeKey: Option<string>, t: Turn, k: nat, cfg: ProxyConfig, rejected: Option<(int, string)>)
    returns (before: seq<Act>, sent: seq<Act>)
    requires c.verdict.Trying? && Silent(c.acts) && c.kept == AsKept(rejected)
    requires loop.Streaming? ==> t.callback.Works?
    ensures var after, r := Attempt(c, loop, routeKey, t, k, cfg), Reserving(c.pool, loop, routeKey, t, k, cfg).1;
      && after.acts == before + sent && Silent(before)
      && (if !r.Reserved? then
            before == c.acts
            && (if rejected.Some? then Answers(after, sent, rejected.value.0, [rejected.value.1])
                else after.verdict.Raised? && sent == [])
          else
            before == c.acts + Begins(r.lease, t)
            && (if loop.Streaming? then StreamedTurn(c, t, k >= cfg.maxRetries, after, sent)
                else ListingTurn(c, t, k >= cfg.maxRetries, after, sent)))
  {
    var (pool, r) := Reserving(c.pool, loop, routeKey, t, k, cfg);
    if r.Reserved? {
      sent := TurnSends(c.(pool := pool), loop, r.lease, t, k >= cfg.maxRetries, cfg);
      before := c.acts + Begins(r.lease, t);
    } else {
      sent := RunsOut(c, loop, routeKey, t, k, cfg, rejected);
      before := c.acts;
    }
  }

  /** A request that is too large is refused before any account is taken; any other is tried. */
  lemma LargeRequestsAreRefused(
    pool: PoolState, size: nat, refusal: Callback, routeKey: Option<string>, turns: seq<Turn>, cfg: ProxyConfig)
    ensures Stream(pool, size, refusal, routeKey, turns, cfg)
      == if size <= 33554432 then Tried(pool, Streaming, routeKey, turns, cfg)
         else if refusal.Breaks? && refusal.at == 0 then Call(pool, [Headers(413)], None, Interrupted)
         else
           Call(pool, [Headers(413), Chunk(FixedError)], None,
                if refusal.Breaks? && refusal.at == 1 then Interrupted else Returned)
  {
  }

  /** A callback that breaks gets what one that works would, as far as it goes: the call that raises is the last. */
  lemma BrokenCallbackCutsShort(c: Call, status: int, bodies: seq<Body>, callback: Callback)
    requires callback.Breaks? && callback.at <= |bodies|
    ensures var whole, cut := Emit(c, status, bodies, Works), Emit(c, status, bodies, callback);
      && whole.acts == c.acts + [Headers(status)] + Chunks(bodies)
      && cut.acts == whole.acts[..|c.acts| + callback.at + 1]
      && whole.verdict.Returned? && cut.verdict.Interrupted?
  {
  }

  // ---------------------------------------------------------------- which accounts are asked

  predicate FirstEligible(
    pool: PoolState, policy: PoolPolicy, fetch: Fetch, w: World, p: string) {
    var pruned := Prune(pool, policy, w);
    F.IsFirst(
      pruned, fetch.profiles, fetch.usages, w, Candidates(pruned, fetch.profiles, fetch.usages, w).0.selectedAt, p)
  }

  /**
   * The account of a turn. The first turn of a request with a route keeps to the account of the route if that can be
   * reserved; every other turn takes the first account in the order of the pool. There is none only if none is
   * eligible. The lease is of this process.
   */
  lemma TurnTakes(pool: PoolState, loop: Loop, routeKey: Option<string>, t: Turn, k: nat, cfg: ProxyConfig)
    ensures var st, r := Run(cfg.policy, pool, t.before), Reserving(pool, loop, routeKey, t, k, cfg).1;
      if t.fetch.None? then r.NoAccount?
      else
        var fetch, pruned := t.fetch.value, Prune(st, cfg.policy, t.reserving);
        var keeps := loop.Streaming? && k == 0 && routeKey.Some? && routeKey.value != "" && routeKey.value in st.routes;
        && !r.StickyUnavailable?
        && (r.NoAccount? <==> forall p :: p in fetch.profiles ==> !F.Eligible(pruned, fetch.usages, t.reserving, p))
        && (r.Reserved? ==>
              && r.lease.owner == Pid(cfg.pid)
              && if keeps && st.routes[routeKey.value].profile in fetch.profiles
                   && F.Eligible(pruned, fetch.usages, t.reserving, st.routes[routeKey.value].profile)
                 then r.lease.profile == st.routes[routeKey.value].profile
                 else FirstEligible(st, cfg.policy, fetch, t.reserving, r.lease.profile))
  {
    if t.fetch.Some? {
      var st, fetch, req := Run(cfg.policy, pool, t.before), t.fetch.value, TurnRequest(loop, routeKey, k, cfg);
      F.RouteDecides(st, cfg.policy, fetch.profiles, fetch.usages, req, t.reserving);
      if Reserve(st, cfg.policy, fetch.profiles, fetch.usages, req, t.reserving).1.Reserved? {
        F.ReserveGrants(st, cfg.policy, fetch.profiles, fetch.usages, req, t.reserving);
      }
    }
  }

  // ---------------------------------------------------------------- the response in one piece

  /** The response a caller is handed: this status, and these texts in order. */
  predicate Holds(response: Option<ProxyResponse>, status: int, texts: seq<string>) {
    && response.Some? && response.value.status == status && |response.value.chunks| == |texts|
    && forall i :: 0 <= i < |texts| ==> response.value.chunks[i] == Bytes(texts[i])
  }

  /** What is told over the callbacks is what a caller of `forward` or `forward_models` is handed. */
  lemma ToldIsHanded(before: seq<Act>, sent: seq<Act>, status: int, texts: seq<string>)
    requires Silent(before) && Tells(sent, status, texts)
    ensures Holds(ReadResponse(before + sent), status, texts)
  {
    var bodies := seq(|texts|, i requires 0 <= i < |texts| => Bytes(texts[i]));
    var c := Call(EMPTY_POOL, before, None, Trying);
    assert sent == Calls(status, bodies, Works);
    EmitReads(c, status, bodies);
  }

  /** The answer of an upstream, as a call passes it on. */
  function AnswerOf(loop: Loop, up: Upstream): Option<(int, seq<string>)> {
    match up
    case Refused(status, Some(body), _) => Some((status, [body]))
    case Answered(status, body, chunks, _, _) =>
      if loop.Streaming? then Some((status, chunks)) else if body.Some? then Some((status, [body.value])) else None
    case _ => None
  }

  /** The last rejected answer of some turns, as a call passes it on. */
  function RejectedAnswer(turns: seq<Turn>): Option<(int, seq<string>)> {
    var r := LastRejection(turns); if r.Some? then Some((r.value.0, [r.value.1])) else None
  }

  lemma TurnTells(c: Call, loop: Loop, t: Turn, last: bool, after: Call, sent: seq<Act>)
    requires if loop.Streaming? then StreamedTurn(c, t, last, after, sent) else ListingTurn(c, t, last, after, sent)
    requires !after.verdict.Trying? && AnswerOf(loop, t.upstream).Some?
    ensures Answers(after, sent, AnswerOf(loop, t.upstream).value.0, AnswerOf(loop, t.upstream).value.1)
  {
  }

  /**
   * The response in one piece: a call that ends hands its caller the answer of the upstream of its last turn, or
   * without an account in that turn the last rejected answer before. It raises if there is neither.
   */
  lemma CallerIsHanded(pool: PoolState, loop: Loop, routeKey: Option<string>, turns: seq<Turn>, cfg: ProxyConfig)
    returns (k: nat)
    requires AllWorkFor(loop, turns) && !Tried(pool, loop, routeKey, turns, cfg).verdict.Trying?
    ensures k < |turns|
    ensures var before, after := Tried(pool, loop, routeKey, turns[..k], cfg), Tried(pool, loop, routeKey, turns, cfg);
      var taken := Reserving(before.pool, loop, routeKey, turns[k], k, cfg).1.Reserved?;
      var answer := if taken then AnswerOf(loop, turns[k].upstream) else RejectedAnswer(turns[..k]);
      && (answer.Some? ==>
            after.verdict.Returned? && Holds(ReadResponse(after.acts), answer.value.0, answer.value.1))
      && (!taken && answer.None? ==> after.verdict.Raised? && Silent(after.acts))
  {
    var before, sent;
    k, before, sent := ClientGetsAnswer(pool, loop, routeKey, turns, cfg);
    var c, after := Tried(pool, loop, routeKey, turns[..k], cfg), Tried(pool, loop, routeKey, turns, cfg);
    var taken := Reserving(c.pool, loop, routeKey, turns[k], k, cfg).1.Reserved?;
    var answer := if taken then AnswerOf(loop, turns[k].upstream) else RejectedAnswer(turns[..k]);
    if answer.Some? {
      if taken {
        TurnTells(c, loop, turns[k], k >= cfg.maxRetries, after, sent);
      }
      ToldIsHanded(before, sent, answer.value.0, answer.value.1);
    }
  }

  // ---------------------------------------------------------------- the account

  /** The credentials as they were read before they were used. */
  function CredentialsRead(p: string, t: Turn): Option<string> {
    if t.reading.Fingerprint(p).Some? then t.reading.Fingerprint(p) else t.marking.Fingerprint(p)
  }

  /**
   * What an account is marked with, by what came of its request and whether its answer was relayed while it was read.
   */
  predicate MarkedFor(h: PoolHealth, before: PoolHealth, p: string, t: Turn, relayed: bool, policy: PoolPolicy) {
    match t.upstream
    case NoToken => Expires(h, CredentialsRead(p, t))
    case Unreachable(_) => Rests(h, before, t.marking.now, policy)
    case Refused(_, None, _) => Rests(h, before, t.marking.now, policy)
    case Refused(status, Some(_), _) =>
      if status == 401 then Expires(h, CredentialsRead(p, t))
      else if WorthRetrying(status) then Rests(h, before, t.marking.now, policy)
      else h == before
    case Answered(status, body, _, breaks, _) =>
      if relayed then if breaks then Rests(h, before, t.marking.now, policy) else Clean(h)
      else if body.None? then Rests(h, before, t.marking.now, policy)
      else if status == 401 then Expires(h, CredentialsRead(p, t))
      else if WorthRetrying(status) then Rests(h, before, t.marking.now, policy)
      else Clean(h)
  }

  /** What a mark makes of the record of the account. */
  predicate MarkMakes(h: PoolHealth, before: PoolHealth, p: string, mark: Option<Mark>, t: Turn, policy: PoolPolicy) {
    match mark
    case None => h == before
    case Some(Succeeds) => Clean(h)
    case Some(Fails(kind)) =>
      if IsAuthKind(kind) then Expires(h, CredentialsRead(p, t))
      else kind == "disabled" || Rests(h, before, t.marking.now, policy)
  }

  lemma MarkedMakes(pool: PoolState, mark: Option<Mark>, p: string, t: Turn, policy: PoolPolicy)
    ensures var after := Marked(pool, mark, p, t.reading, t.marking, policy);
      && MarkMakes(HealthOf(after, p), HealthOf(pool, p), p, mark, t, policy)
      && OthersKeep(after, pool, p)
      && after.leases == pool.leases && after.routes == pool.routes
  {
    match mark
    case Some(Fails(kind)) =>
      FailureMakes(pool, policy, p, kind, t.reading.Fingerprint(p), t.marking);
    case Some(Succeeds) => SuccessMakes(pool, policy, p, t.marking);
    case None =>
  }

  predicate Relayed(loop: Loop, t: Turn, last: bool) {
    t.upstream.Answered? && loop.Streaming? && (last || !WorthRetrying(t.upstream.status))
  }

  lemma RightMark(h: PoolHealth, before: PoolHealth, loop: Loop, p: string, t: Turn, last: bool, policy: PoolPolicy)
    requires MarkMakes(h, before, p, Decide(loop, t.upstream, last).mark, t, policy)
    ensures MarkedFor(h, before, p, t, Relayed(loop, t, last), policy)
  {
  }

  lemma HandOverMarks(loop: Loop, t: Turn, last: bool)
    requires loop.Streaming? ==> t.callback.Works?
    ensures var d := Decide(loop, t.upstream, last);
      HandOver(d, t, last).mark == d.mark && !HandOver(d, t, last).remark
  {
  }

  /** The mark of a turn is that of what came of its request; no other account is marked. */
  lemma TurnMarks(pool: PoolState, loop: Loop, p: string, t: Turn, last: bool, policy: PoolPolicy)
    requires loop.Streaming? ==> t.callback.Works?
    ensures var start := Run(policy, pool, t.during);
      var after := AfterMarks(pool, HandOver(Decide(loop, t.upstream, last), t, last), p, t, policy);
      && MarkedFor(HealthOf(after, p), HealthOf(start, p), p, t, Relayed(loop, t, last), policy)
      && OthersKeep(after, start, p)
      && after.leases == start.leases && after.routes == start.routes
  {
    var start, mark := Run(policy, pool, t.during), Decide(loop, t.upstream, last).mark;
    HandOverMarks(loop, t, last);
    MarkedMakes(start, mark, p, t, policy);
    var h := HealthOf(Marked(start, mark, p, t.reading, t.marking, policy), p);
    RightMark(h, HealthOf(start, p), loop, p, t, last, policy);
  }

  /** The callback breaks while this turn hands over its response. */
  predicate BrokenIn(t: Turn, last: bool) {
    var next := Decide(Streaming, t.upstream, last).next;
    t.callback.Breaks? && next.Final? && t.callback.at <= |next.chunks|
  }

  lemma BrokenHandOver(t: Turn, last: bool)
    requires BrokenIn(t, last)
    ensures var d := Decide(Streaming, t.upstream, last);
      var e, relayed := HandOver(d, t, last), Relayed(Streaming, t, last);
      && e.mark == (if !relayed then d.mark else if t.callback.caught then Some(Fails("network")) else None)
      && (e.remark <==> !relayed && t.callback.caught && !(t.upstream.Refused? && t.upstream.body.None?))
  {
  }

  /**
   * A streamed turn whose callback breaks. While the answer was relayed, that is a failure of the account if the loop
   * catches the error, and nothing otherwise. Any other response leaves its mark; and if the error is caught in the
   * handler that sends it, there is a failure of the account on top.
   */
  lemma BrokenTurnMarks(pool: PoolState, p: string, t: Turn, last: bool, policy: PoolPolicy)
    returns (first: PoolHealth)
    requires BrokenIn(t, last) && t.between == []
    ensures var start := Run(policy, pool, t.during);
      var after := AfterMarks(pool, HandOver(Decide(Streaming, t.upstream, last), t, last), p, t, policy);
      var h, before := HealthOf(after, p), HealthOf(start, p);
      && (if Relayed(Streaming, t, last) then
            if t.callback.caught then Rests(h, before, t.marking.now, policy) else h == before
          else
            && MarkedFor(first, before, p, t, false, policy)
            && if t.callback.caught && !(t.upstream.Refused? && t.upstream.body.None?)
               then Rests(h, first, t.remarking.now, policy) else h == first)
      && OthersKeep(after, start, p)
  {
    var start, d := Run(policy, pool, t.during), Decide(Streaming, t.upstream, last);
    var e := HandOver(d, t, last);
    var marked := Marked(start, e.mark, p, t.reading, t.marking, policy);
    first := HealthOf(marked, p);
    BrokenHandOver(t, last);
    MarkedMakes(start, e.mark, p, t, policy);
    if !Relayed(Streaming, t, last) {
      RightMark(first, HealthOf(start, p), Streaming, p, t, last, policy);
    }
    FailureMakes(marked, policy, p, "network", t.reading.Fingerprint(p), t.remarking);
    assert Run(policy, marked, t.between) == marked;
  }
}
