/** Token refreshes of refresh.py against a server that hands out single-use refresh tokens. */
module RefreshTokens {
  // Each exchange retires the token it is given and issues the next. The profile's lock is held across the exchange.

  import opened Wrappers
  import opened Text
  import opened Refreshing
  import opened Credentials

  // ---------------------------------------------------------------- one refresh

  datatype Payload = Payload(access: Option<string>, refresh: Option<string>, idToken: Option<string>)

  /** How an exchange ends for the caller. */
  datatype Answer = Accepted(payload: Payload) | Denied(code: Option<string>) | Unanswered

  const PERMANENT_CODES := {"invalid_grant", "invalid_refresh_token", "refresh_token_invalidated",
    "refresh_token_reused"}

  /** What reading tokens means: the account of a file, and the expiry of an access token. */
  datatype Reader = Reader(id: Identity, expiry: string -> Option<int>)

  predicate IsBlank(text: Option<string>) {
    text.None? || Trim(text.value, Blank) == ""
  }

  function ExpiresAt(rd: Reader, auth: Auth): Option<int> {
    if IsBlank(auth.access) then None else rd.expiry(auth.access.value)
  }

  function Newer(given: Option<string>, kept: Option<string>): Option<string> {
    if IsBlank(given) then kept else Some(Trim(given.value, Blank))
  }

  /** `_apply_tokens`, for a payload with an access token. */
  function ApplyTokens(data: Auth, payload: Payload, stamp: string): Auth {
    data.(access := payload.access, refresh := Newer(payload.refresh, data.refresh),
          idToken := Newer(payload.idToken, data.idToken), lastRefresh := Some(stamp))
  }

  /** What a refresh that has the lock decides from the file: nothing, or to present this token. */
  function TokenToPresent(rd: Reader, file: Option<Auth>, force: bool, now: real, skew: real): Option<string> {
    if file.None? || IsBlank(file.value.refresh) then None
    else if !force && !NeedsRefresh(ExpiresAt(rd, file.value), now, skew) then None
    else Some(Trim(file.value.refresh.value, Blank))
  }

  /** The rest, once the exchange is over. */
  function Conclude(
    rd: Reader, v: Vault, data: Auth, expected: Option<string>, answer: Answer, stamp: string, writable: bool)
    : (Vault, RefreshStatus)
  {
    match answer
    case Unanswered => (v, Failed)
    case Denied(code) => (v, if code.Some? && code.value in PERMANENT_CODES then LoginRequired else Failed)
    case Accepted(payload) =>
      if IsBlank(payload.access) || !writable then (v, Failed)
      else
        var (after, ok) := Sync(rd.id, v, Some(ApplyTokens(data, payload, stamp)), expected, None);
        (after, if ok then Refreshed else Rejected)
  }

  // ---------------------------------------------------------------- what a refresh decides and stores

  /** Some character is not white space. */
  predicate Says(text: Option<string>) {
    text.Some? && exists i :: 0 <= i < |text.value| && !Blank(text.value[i])
  }

  lemma BlankSaysNothing(text: Option<string>)
    ensures IsBlank(text) <==> !Says(text)
  {
    if text.Some? {
      var i, j := TrimIs(text.value, Blank);
      if Trim(text.value, Blank) != "" {
        assert !Blank(text.value[i]);
      }
    }
  }

  /** The text without the white space around it. */
  ghost predicate Bare(text: string, r: string) {
    r != "" && exists i: nat, j: nat :: Stripped(text, r, Blank, i, j)
  }

  lemma TrimIsBare(text: string)
    requires Says(Some(text))
    ensures Bare(text, Trim(text, Blank))
  {
    BlankSaysNothing(Some(text));
    var i, j := TrimIs(text, Blank);
  }

  /** The access token cannot be used much longer, or there is none, or its expiry cannot be read. */
  predicate Due(rd: Reader, access: Option<string>, now: real, skew: real) {
    !Says(access) || rd.expiry(access.value).None? || rd.expiry(access.value).value as real <= now + skew
  }

  /** A token is presented, its own and bare, if and only if there is one, and it is due or the refresh is forced. */
  lemma WhatIsPresented(rd: Reader, file: Option<Auth>, force: bool, now: real, skew: real)
    ensures var token := TokenToPresent(rd, file, force, now, skew);
      && (token.Some? <==> file.Some? && Says(file.value.refresh) && (force || Due(rd, file.value.access, now, skew)))
      && (token.Some? ==> Bare(file.value.refresh.value, token.value))
  {
    if file.Some? {
      BlankSaysNothing(file.value.refresh);
      BlankSaysNothing(file.value.access);
      if Says(file.value.refresh) {
        TrimIsBare(file.value.refresh.value);
      }
    }
  }

  /** A field of the file after an answer that may give a new value for it. */
  ghost predicate Renewed(after: Option<string>, before: Option<string>, given: Option<string>) {
    if Says(given) then after.Some? && Bare(given.value, after.value) else after == before
  }

  lemma NewerRenews(given: Option<string>, kept: Option<string>)
    ensures Renewed(Newer(given, kept), kept, given)
  {
    BlankSaysNothing(given);
    if Says(given) {
      TrimIsBare(given.value);
    }
  }

  /** The file with the new tokens: a token that is not given stays, and so does all the rest. */
  ghost predicate HasTokens(after: Auth, data: Auth, payload: Payload, stamp: string) {
    && after.access == payload.access && after.lastRefresh == Some(stamp) && after.rest == data.rest
    && Renewed(after.refresh, data.refresh, payload.refresh) && Renewed(after.idToken, data.idToken, payload.idToken)
  }

  /**
   * How a refresh ends. It is refreshed when the file has the new tokens, rejected when they are of another account
   * and have been put aside, and needs a login exactly when the server says that the token is of no more use.
   */
  lemma HowItEnds(
    rd: Reader, v: Vault, data: Auth, expected: Option<string>, answer: Answer, stamp: string, writable: bool)
    ensures var (after, status) := Conclude(rd, v, data, expected, answer, stamp, writable);
      && status in [Refreshed, Rejected, LoginRequired, Failed]
      && (status in [LoginRequired, Failed] ==> after == v)
      && (status == LoginRequired <==>
            answer.Denied? && answer.code in [
              Some("invalid_grant"), Some("invalid_refresh_token"), Some("refresh_token_invalidated"),
              Some("refresh_token_reused")])
      && (status in [Refreshed, Rejected] <==> answer.Accepted? && Says(answer.payload.access) && writable)
      && (status == Refreshed ==>
            && after.rejected == v.rejected && after.file.Some?
            && HasTokens(after.file.value, data, answer.payload, stamp)
            && (after.file == v.file || Belongs(rd.id, after.file.value, expected)))
      && (status == Rejected ==>
            && after.file == v.file && |after.rejected| == |v.rejected| + 1
            && after.rejected[..|v.rejected|] == v.rejected
            && HasTokens(after.rejected[|v.rejected|], data, answer.payload, stamp)
            && !(Belongs(rd.id, after.rejected[|v.rejected|], expected)
                 && (v.file.Some? ==> Belongs(rd.id, after.rejected[|v.rejected|], rd.id(v.file.value)))))
  {
    if answer.Accepted? {
      BlankSaysNothing(answer.payload.access);
      NewerRenews(answer.payload.refresh, data.refresh);
      NewerRenews(answer.payload.idToken, data.idToken);
    }
  }

  // ---------------------------------------------------------------- the server and the lock

  datatype Server = Server(current: string, retired: set<string>)

  /** What happens to an exchange: it does not arrive, its answer is lost on the way back, or it comes through. */
  datatype Fate = Unreached | Lost | Arrives

  /** The tokens issued to an exchange that presents the current one. */
  datatype Issue = Issue(access: Option<string>, next: string, idToken: Option<string>)

  datatype Lock =
    | Free
    | Asking(data: Auth, expected: Option<string>, token: string, unforced: bool, now: real)
    | Told(data: Auth, expected: Option<string>, answer: Answer)

  /** A token the server was shown, and whether it was still the current one. */
  datatype Shown = Shown(token: string, current: bool, unforced: bool, now: real)

  datatype System = System(vault: Vault, server: Server, lock: Lock, shown: seq<Shown>) {
    /** New tokens have come back and are not stored yet. */
    predicate HoldsTokens() {
      lock.Told? && lock.answer.Accepted?
    }
  }

  datatype Event =
    | Enters(force: bool, now: real)
    | Exchanges(fate: Fate, issue: Issue)
    | Finishes(stamp: string, writable: bool)
    | Dies

  /** A token never issued before, as it will be read back. */
  predicate NewToken(server: Server, next: string) {
    next != "" && Trim(next, Blank) == next && next != server.current && next !in server.retired
  }

  function Serve(server: Server, token: string, issue: Issue): (Server, Answer) {
    if token != server.current then (server, Denied(Some("refresh_token_reused")))
    else
      (Server(issue.next, server.retired + {token}),
       Accepted(Payload(issue.access, Some(issue.next), issue.idToken)))
  }

  /** Events that need the lock while another call holds it, or need it held, otherwise do nothing. */
  function Step(rd: Reader, skew: real, s: System, e: Event): System {
    match e
    case Enters(force, now) =>
      var token := TokenToPresent(rd, s.vault.file, force, now, skew);
      if !s.lock.Free? || token.None? then s
      else s.(lock := Asking(s.vault.file.value, rd.id(s.vault.file.value), token.value, !force, now))
    case Exchanges(fate, issue) =>
      if !s.lock.Asking? then s
      else if fate.Unreached? then s.(lock := Told(s.lock.data, s.lock.expected, Unanswered))
      else
        var (server, answer) := Serve(s.server, s.lock.token, issue);
        s.(server := server,
           lock := Told(s.lock.data, s.lock.expected, if fate.Lost? then Unanswered else answer),
           shown := s.shown + [Shown(s.lock.token, s.lock.token == s.server.current, s.lock.unforced, s.lock.now)])
    case Finishes(stamp, writable) =>
      if !s.lock.Told? then s
      else
        var (vault, _) := Conclude(rd, s.vault, s.lock.data, s.lock.expected, s.lock.answer, stamp, writable);
        s.(vault := vault, lock := Free)
    case Dies => s.(lock := Free)
  }

  function Run(rd: Reader, skew: real, s: System, es: seq<Event>): System {
    if es == [] then s else Step(rd, skew, Run(rd, skew, s, es[..|es| - 1]), es[|es| - 1])
  }

  // ---------------------------------------------------------------- in step with the server

  /** The stored token reads as the server's current one. */
  predicate InStep(v: Vault, server: Server) {
    v.file.Some? && v.file.value.refresh.Some? && Trim(v.file.value.refresh.value, Blank) == server.current
  }

  predicate ServerSane(server: Server) {
    server.current != "" && server.current !in server.retired
  }

  /** What the server owes: new tokens. */
  predicate Honest(s: System, e: Event) {
    e.Exchanges? && s.lock.Asking? && !e.fate.Unreached? ==> NewToken(s.server, e.issue.next)
  }

  predicate HonestRun(rd: Reader, skew: real, s: System, es: seq<Event>) {
    es == [] ||
    (HonestRun(rd, skew, s, es[..|es| - 1]) && Honest(Run(rd, skew, s, es[..|es| - 1]), es[|es| - 1]))
  }

  /**
   * Tokens that have come back can be stored: there is an access token, and they are of the account of the profile.
   */
  predicate CanStore(rd: Reader, data: Auth, payload: Payload, stamp: string) {
    !IsBlank(payload.access) && (rd.id(data).Some? ==> rd.id(ApplyTokens(data, payload, stamp)) == rd.id(data))
  }

  /**
   * Where new tokens are lost: their answer does not come back, the process dies with them in hand, or they cannot be
   * stored.
   */
  predicate Strands(rd: Reader, s: System, e: Event) {
    match e
    case Enters(_, _) => false
    case Exchanges(fate, _) => s.lock.Asking? && fate.Lost?
    case Finishes(stamp, writable) =>
      s.HoldsTokens() && !(writable && CanStore(rd, s.lock.data, s.lock.answer.payload, stamp))
    case Dies => s.HoldsTokens()
  }

  predicate NeverStrands(rd: Reader, skew: real, s: System, es: seq<Event>) {
    es == [] ||
    (NeverStrands(rd, skew, s, es[..|es| - 1]) && !Strands(rd, Run(rd, skew, s, es[..|es| - 1]), es[|es| - 1]))
  }

  /** The current token of the server is stored, or in the hands of the call that holds the lock. */
  predicate Kept(s: System) {
    InStep(s.vault, s.server) || (s.HoldsTokens() && s.lock.answer.payload.refresh == Some(s.server.current))
  }

  predicate AlwaysKept(rd: Reader, skew: real, s: System, es: seq<Event>) {
    Kept(Run(rd, skew, s, es)) && (es == [] || AlwaysKept(rd, skew, s, es[..|es| - 1]))
  }

  /** A file that a call has read and nobody has changed since. */
  predicate Unchanged(rd: Reader, s: System)
    requires !s.lock.Free?
  {
    s.vault.file == Some(s.lock.data) && s.lock.expected == rd.id(s.lock.data)
  }

  predicate Synchronized(rd: Reader, s: System) {
    && ServerSane(s.server)
    && (forall i :: 0 <= i < |s.shown| ==> s.shown[i].current)
    && match s.lock
       case Free => InStep(s.vault, s.server)
       case Asking(_, _, token, _, _) => InStep(s.vault, s.server) && token == s.server.current && Unchanged(rd, s)
       case Told(data, _, answer) =>
         Unchanged(rd, s) && match answer
         case Denied(_) => false
         case Unanswered => InStep(s.vault, s.server)
         case Accepted(payload) =>
           && payload.refresh == Some(s.server.current) && Trim(s.server.current, Blank) == s.server.current
           && !InStep(s.vault, s.server)
  }

  /** The end of a call: its tokens are stored, exactly if they can be. */
  lemma FinishKeeps(rd: Reader, skew: real, s: System, stamp: string, writable: bool)
    requires Synchronized(rd, s) && s.HoldsTokens()
    ensures var t := Step(rd, skew, s, Finishes(stamp, writable));
      if Strands(rd, s, Finishes(stamp, writable)) then !Kept(t)
      else Synchronized(rd, t) && t.vault.file == Some(ApplyTokens(s.lock.data, s.lock.answer.payload, stamp))
  {
    var stored := ApplyTokens(s.lock.data, s.lock.answer.payload, stamp);
    assert stored.refresh == Some(s.server.current);
  }

  /** One step, exactly: it keeps the token, unless it strands the profile. */
  lemma StepStaysSynchronized(rd: Reader, skew: real, s: System, e: Event)
    requires Synchronized(rd, s) && Honest(s, e)
    ensures var t := Step(rd, skew, s, e); if Strands(rd, s, e) then !Kept(t) else Synchronized(rd, t)
  {
    if e.Finishes? && s.HoldsTokens() {
      FinishKeeps(rd, skew, s, e.stamp, e.writable);
    }
  }

  lemma {:induction false} RunStaysSynchronized(rd: Reader, skew: real, s: System, es: seq<Event>)
    requires Synchronized(rd, s) && HonestRun(rd, skew, s, es) && NeverStrands(rd, skew, s, es)
    ensures Synchronized(rd, Run(rd, skew, s, es))
  {
    if es != [] {
      var front := es[..|es| - 1];
      RunStaysSynchronized(rd, skew, s, front);
      StepStaysSynchronized(rd, skew, Run(rd, skew, s, front), es[|es| - 1]);
    }
  }

  /** Nothing is lost, exactly: over any run the current token is always kept if and only if no step strands it. */
  lemma {:induction false} CurrentTokenIsKept(rd: Reader, skew: real, s: System, es: seq<Event>)
    requires Synchronized(rd, s) && HonestRun(rd, skew, s, es)
    ensures AlwaysKept(rd, skew, s, es) <==> NeverStrands(rd, skew, s, es)
  {
    if es != [] {
      var front := es[..|es| - 1];
      CurrentTokenIsKept(rd, skew, s, front);
      if NeverStrands(rd, skew, s, front) {
        RunStaysSynchronized(rd, skew, s, front);
        StepStaysSynchronized(rd, skew, Run(rd, skew, s, front), es[|es| - 1]);
      }
    }
  }

  /**
   * Single-use tokens under concurrency. In every interleaving of refreshes that strands no token, whether they reach
   * the server or not, the stored token is the server's current one whenever the lock is free, and no token is ever
   * shown to the server after it was retired.
   */
  lemma NoTokenIsReused(rd: Reader, skew: real, s: System, es: seq<Event>)
    requires s.lock.Free? && s.shown == [] && ServerSane(s.server) && InStep(s.vault, s.server)
    requires HonestRun(rd, skew, s, es) && NeverStrands(rd, skew, s, es)
    ensures var t := Run(rd, skew, s, es);
      && (t.lock.Free? ==> InStep(t.vault, t.server))
      && (forall i :: 0 <= i < |t.shown| ==> t.shown[i].current)
  {
    RunStaysSynchronized(rd, skew, s, es);
  }

  // ---------------------------------------------------------------- one exchange per need

  predicate ValidPast(rd: Reader, access: Option<string>, skew: real, t: real) {
    !IsBlank(access) && !NeedsRefresh(rd.expiry(access.value), t, skew)
  }

  /** The calls that exchanged although they were not forced, at a clock of t or before. */
  function Unforced(shown: seq<Shown>, t: real): nat {
    if shown == [] then 0
    else Unforced(shown[..|shown| - 1], t) + if shown[|shown| - 1].unforced && shown[|shown| - 1].now <= t then 1 else 0
  }

  /** The tokens issued along the run are good for the clock t. */
  ghost predicate LongLived(rd: Reader, skew: real, t: real, es: seq<Event>) {
    forall i :: 0 <= i < |es| && es[i].Exchanges? && !es[i].fate.Unreached? ==>
      ValidPast(rd, es[i].issue.access, skew, t)
  }

  /** After the first exchange, no unforced call at t or before has a reason to make another. */
  predicate Satisfied(rd: Reader, skew: real, t: real, s: System) {
    && Unforced(s.shown, t) <= 1
    && match s.lock
       case Free => s.shown != [] ==> s.vault.file.Some? && ValidPast(rd, s.vault.file.value.access, skew, t)
       case Asking(_, _, _, unforced, now) =>
         s.shown != [] ==>
           s.vault.file.Some? && ValidPast(rd, s.vault.file.value.access, skew, t) && !(unforced && now <= t)
       case Told(_, _, Accepted(payload)) => s.shown != [] && ValidPast(rd, payload.access, skew, t)
       case Told(_, _, _) =>
         s.shown != [] ==> s.vault.file.Some? && ValidPast(rd, s.vault.file.value.access, skew, t)
  }

  lemma ExchangeStaysSatisfied(rd: Reader, skew: real, t: real, s: System, e: Event)
    requires !Strands(rd, s, e) && Satisfied(rd, skew, t, s) && e.Exchanges? && s.lock.Asking?
    requires s.lock.token == s.server.current && (!e.fate.Unreached? ==> ValidPast(rd, e.issue.access, skew, t))
    ensures Satisfied(rd, skew, t, Step(rd, skew, s, e))
  {
    var after := Step(rd, skew, s, e);
    if e.fate.Unreached? {
      assert after.shown == s.shown;
    } else {
      assert after.shown[..|after.shown| - 1] == s.shown;
    }
    if s.shown == [] {
      assert Unforced(s.shown, t) == 0;
    }
  }

  lemma FinishStaysSatisfied(rd: Reader, skew: real, t: real, s: System, e: Event)
    requires Synchronized(rd, s) && !Strands(rd, s, e) && Satisfied(rd, skew, t, s) && e.Finishes? && s.HoldsTokens()
    ensures Satisfied(rd, skew, t, Step(rd, skew, s, e))
  {
    FinishKeeps(rd, skew, s, e.stamp, e.writable);
  }

  lemma StepStaysSatisfied(rd: Reader, skew: real, t: real, s: System, e: Event)
    requires Synchronized(rd, s) && !Strands(rd, s, e) && Satisfied(rd, skew, t, s)
    requires e.Exchanges? && !e.fate.Unreached? ==> ValidPast(rd, e.issue.access, skew, t)
    ensures Satisfied(rd, skew, t, Step(rd, skew, s, e))
  {
    if e.Exchanges? && s.lock.Asking? {
      ExchangeStaysSatisfied(rd, skew, t, s, e);
    } else if e.Finishes? && s.HoldsTokens() {
      FinishStaysSatisfied(rd, skew, t, s, e);
    }
  }

  lemma {:induction false} RunStaysSatisfied(rd: Reader, skew: real, t: real, s: System, es: seq<Event>)
    requires Synchronized(rd, s) && s.lock.Free? && s.shown == []
    requires HonestRun(rd, skew, s, es) && NeverStrands(rd, skew, s, es) && LongLived(rd, skew, t, es)
    ensures Satisfied(rd, skew, t, Run(rd, skew, s, es))
  {
    if es != [] {
      var front := es[..|es| - 1];
      assert forall i :: 0 <= i <= |front| ==> front[..i] == es[..i];
      RunStaysSatisfied(rd, skew, t, s, front);
      RunStaysSynchronized(rd, skew, s, front);
      StepStaysSatisfied(rd, skew, t, Run(rd, skew, s, front), es[|es| - 1]);
    }
  }

  /** Of all the calls that are not forced and whose clock reads t or less, at most one reaches the server. */
  lemma AtMostOneExchanges(rd: Reader, skew: real, t: real, s: System, es: seq<Event>)
    requires s.lock.Free? && s.shown == [] && ServerSane(s.server) && InStep(s.vault, s.server)
    requires HonestRun(rd, skew, s, es) && NeverStrands(rd, skew, s, es) && LongLived(rd, skew, t, es)
    ensures Unforced(Run(rd, skew, s, es).shown, t) <= 1
  {
    RunStaysSatisfied(rd, skew, t, s, es);
  }

  // ---------------------------------------------------------------- when something goes wrong

  /**
   * Exactly when an exchange leaves the profile in step: it did not reach the server, or its tokens came back with an
   * access token, for the account of the profile, and could be written.
   */
  lemma ExchangeLeavesInStep(rd: Reader, skew: real, s: System, fate: Fate, issue: Issue, stamp: string, writable: bool)
    requires Synchronized(rd, s) && s.lock.Asking? && NewToken(s.server, issue.next)
    ensures var t := Step(rd, skew, Step(rd, skew, s, Exchanges(fate, issue)), Finishes(stamp, writable));
      var payload := Payload(issue.access, Some(issue.next), issue.idToken);
      InStep(t.vault, t.server)
      <==> fate.Unreached? || (fate.Arrives? && writable && CanStore(rd, s.lock.data, payload, stamp))
  {
    StepStaysSynchronized(rd, skew, s, Exchanges(fate, issue));
    var told := Step(rd, skew, s, Exchanges(fate, issue));
    if fate.Arrives? {
      FinishKeeps(rd, skew, told, stamp, writable);
    }
  }

  /** A stored token that the server has retired. */
  predicate Stranded(v: Vault, server: Server) {
    && ServerSane(server)
    && v.file.Some? && v.file.value.refresh.Some? && Trim(v.file.value.refresh.value, Blank) in server.retired
  }

  predicate StuckAt(s: System, v: Vault, n: nat) {
    && s.vault == v && Stranded(v, s.server) && n <= |s.shown|
    && (s.lock.Asking? ==> s.lock.token in s.server.retired)
    && (s.lock.Told? ==> s.lock.answer in {Unanswered, Denied(Some("refresh_token_reused"))})
    && forall i :: n <= i < |s.shown| ==> !s.shown[i].current
  }

  /**
   * Once the answer to an exchange is lost there is no way back without a login: whatever refreshes follow, the file
   * stays as it is, the server refuses every exchange that reaches it, and none ends as refreshed.
   */
  lemma {:induction false} StrandedForever(rd: Reader, skew: real, s: System, es: seq<Event>)
    requires s.lock.Free? && Stranded(s.vault, s.server)
    ensures StuckAt(Run(rd, skew, s, es), s.vault, |s.shown|)
  {
    if es != [] {
      StrandedForever(rd, skew, s, es[..|es| - 1]);
    }
  }

  /** A lost answer strands the profile. */
  lemma LostAnswerStrands(rd: Reader, skew: real, s: System, issue: Issue, stamp: string, writable: bool)
    requires Synchronized(rd, s) && s.lock.Asking? && NewToken(s.server, issue.next)
    ensures var t := Step(rd, skew, Step(rd, skew, s, Exchanges(Lost, issue)), Finishes(stamp, writable));
      t.lock.Free? && Stranded(t.vault, t.server)
  {
  }

  // ---------------------------------------------------------------- in place

  class ProfileRefresher {
    const rd: Reader
    const store: ProfileStore

    constructor (rd: Reader, store: ProfileStore)
      requires store.id == rd.id
      ensures this.rd == rd && this.store == store
    {
      this.rd := rd;
      this.store := store;
    }

    /** `refresh_profile`, with the answer its exchange would get. */
    method RefreshProfile(force: bool, now: real, skew: real, answer: Answer, stamp: string, writable: bool)
      returns (status: RefreshStatus, rotated: bool)
      requires store.id == rd.id
      modifies store
      ensures var v, token := old(store.State()), TokenToPresent(rd, old(store.State()).file, force, now, skew);
        (store.State(), status) ==
          if token.None? then (v, Skipped) else Conclude(rd, v, v.file.value, rd.id(v.file.value), answer, stamp,
            writable)
      ensures rotated ==> status == Refreshed && old(store.file).Some? && store.file.Some?
      ensures status == Refreshed ==> (rotated <==> store.file.value.refresh != old(store.file).value.refresh)
    {
      rotated := false;
      if store.file.None? || IsBlank(store.file.value.refresh) {
        return Skipped, false;
      }
      var data := store.file.value;
      if !force && !NeedsRefresh(ExpiresAt(rd, data), now, skew) {
        return Skipped, false;
      }
      var expected := rd.id(data);
      match answer
      case Unanswered => return Failed, false;
      case Denied(code) =>
        return if code.Some? && code.value in PERMANENT_CODES then LoginRequired else Failed, false;
      case Accepted(payload) =>
        if IsBlank(payload.access) || !writable {
          return Failed, false;
        }
        var updated := ApplyTokens(data, payload, stamp);
        var ok := store.SyncProfileAuth(Some(updated), expected, None);
        if !ok {
          return Rejected, false;
        }
        return Refreshed, updated.refresh != data.refresh;
    }
  }
}
