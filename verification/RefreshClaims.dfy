/** The in-memory claims of pool.py: which profiles have a token exchange under way, and when one may start again. */
module RefreshClaims {
  // Request threads claim; workers settle and finish on their own.

  import opened Wrappers
  import opened Pool
  import opened Refreshing

  // ---------------------------------------------------------------- claiming

  /** `_refresh_inflight` and `_refresh_retry_after`, both guarded by `_refresh_lock`. */
  datatype Book = Book(inflight: set<string>, retryAfter: map<string, real>)

  /** What the claim loop reads about one profile. */
  datatype Probe = Probe(
    expiresAt: Option<int>, hasRefreshToken: bool, fingerprint: Option<string>, health: Option<PoolHealth>)

  datatype ClaimedProfile = ClaimedProfile(profile: string, fingerprint: Option<string>)

  /** The credential the server has retired for good is still the one on file. */
  predicate KnownDead(probe: Probe) {
    && probe.health.Some?
    && probe.health.value.status == AuthExpired
    && probe.health.value.fingerprint.Some?
    && probe.health.value.fingerprint == probe.fingerprint
  }

  predicate MayClaim(b: Book, p: string, probe: Probe, now: real) {
    && p !in b.inflight
    && (p in b.retryAfter ==> b.retryAfter[p] <= now)
    && NeedsRefresh(probe.expiresAt, now, EXPIRY_SKEW)
    && probe.hasRefreshToken
    && !KnownDead(probe)
  }

  function ClaimOne(b: Book, p: string, now: real, backoff: real): Book {
    Book(b.inflight + {p}, b.retryAfter[p := now + backoff])
  }

  /** The claim loop over a prefix of the profiles; a profile without a probe has no saved file. */
  function ClaimAll(b: Book, profiles: seq<string>, probes: map<string, Probe>, now: real, backoff: real)
    : (r: (Book, seq<ClaimedProfile>))
  {
    if profiles == [] then (b, [])
    else
      var (before, found) := ClaimAll(b, profiles[..|profiles| - 1], probes, now, backoff);
      var p := profiles[|profiles| - 1];
      if p in probes && MayClaim(before, p, probes[p], now)
      then (ClaimOne(before, p, now, backoff), found + [ClaimedProfile(p, probes[p].fingerprint)])
      else (before, found)
  }

  /** A refreshed or skipped profile may be tried again at once. */
  predicate ClearsBackoff(status: RefreshStatus) {
    status == Refreshed || status == Skipped
  }

  function Settle(b: Book, p: string, status: RefreshStatus): Book {
    if ClearsBackoff(status) then b.(retryAfter := b.retryAfter - {p}) else b
  }

  function Finish(b: Book, p: string): Book {
    b.(inflight := b.inflight - {p})
  }

  // ---------------------------------------------------------------- who is claimed

  /** The token has to be renewed now: its expiry is unreadable or at most five minutes away. */
  predicate Due(probe: Probe, now: real) {
    probe.expiresAt.None? || probe.expiresAt.value as real <= now + 300.0
  }

  /** The account's credentials were refused, and the file still holds them. */
  predicate Refused(probe: Probe) {
    && probe.fingerprint.Some? && probe.health.Some?
    && probe.health.value.status == AuthExpired && probe.health.value.fingerprint == probe.fingerprint
  }

  predicate Claims(claimed: seq<ClaimedProfile>, p: string) {
    exists i :: 0 <= i < |claimed| && claimed[i].profile == p
  }

  /**
   * The profile is listed, has a file with a refresh token that is due and not refused, and none is at work on it.
   */
  predicate Wanted(b: Book, profiles: seq<string>, probes: map<string, Probe>, now: real, p: string) {
    && p in profiles && p in probes && probes[p].hasRefreshToken && Due(probes[p], now) && !Refused(probes[p])
    && p !in b.inflight && (p in b.retryAfter ==> now >= b.retryAfter[p])
  }

  /** A call claims exactly the profiles that are wanted, each once and with its file's fingerprint, and notes it. */
  lemma {:induction false} ClaimsAreWanted(
    b: Book, profiles: seq<string>, probes: map<string, Probe>, now: real, backoff: real)
    ensures var (after, claimed) := ClaimAll(b, profiles, probes, now, backoff);
      && (forall p :: Claims(claimed, p) <==> Wanted(b, profiles, probes, now, p))
      && (forall i, j :: 0 <= i < j < |claimed| ==> claimed[i].profile != claimed[j].profile)
      && (forall c :: c in claimed ==> c.profile in probes && c.fingerprint == probes[c.profile].fingerprint)
      && (forall p :: p in after.inflight <==> p in b.inflight || Claims(claimed, p))
      && (forall p :: p in after.retryAfter <==> p in b.retryAfter || Claims(claimed, p))
      && (forall p :: p in after.retryAfter ==>
            after.retryAfter[p] == if Claims(claimed, p) then now + backoff else b.retryAfter[p])
  {
    if profiles != [] {
      var front, p := profiles[..|profiles| - 1], profiles[|profiles| - 1];
      ClaimsAreWanted(b, front, probes, now, backoff);
      var (before, found) := ClaimAll(b, front, probes, now, backoff);
      assert forall q :: q in profiles <==> q in front || q == p;
      if p in probes && MayClaim(before, p, probes[p], now) {
        ClaimsMore(found, ClaimedProfile(p, probes[p].fingerprint));
        assert !Claims(found, p);
      }
    }
  }

  lemma ClaimsMore(found: seq<ClaimedProfile>, c: ClaimedProfile)
    ensures forall q :: Claims(found + [c], q) <==> Claims(found, q) || q == c.profile
  {
    var all := found + [c];
    assert all[|found|] == c;
    forall q | Claims(found, q) ensures Claims(all, q) {
      var i :| 0 <= i < |found| && found[i].profile == q;
      assert all[i].profile == q;
    }
  }

  /** After an exchange: a token renewed, or one that turned out not to be due, may be claimed again at once. */
  lemma OutcomesAreNoted(b: Book, p: string, status: RefreshStatus)
    ensures var after := Settle(b, p, status);
      && after.inflight == b.inflight
      && (forall q :: q in after.retryAfter <==>
            q in b.retryAfter && !(q == p && status in [Refreshed, Skipped]))
      && (forall q :: q in after.retryAfter ==> after.retryAfter[q] == b.retryAfter[q])
  {
  }

  /** The object that holds the book, one method per critical section. */
  class RefreshBook {
    const backoff: real
    var inflight: set<string>
    var retryAfter: map<string, real>

    constructor (backoff: real)
      ensures this.backoff == backoff && State() == Book({}, map[])
    {
      this.backoff := backoff;
      inflight := {};
      retryAfter := map[];
    }

    function State(): Book
      reads this
    {
      Book(inflight, retryAfter)
    }

    method ClaimStale(profiles: seq<string>, probes: map<string, Probe>, now: real)
      returns (pending: seq<ClaimedProfile>)
      modifies this
      ensures (State(), pending) == ClaimAll(old(State()), profiles, probes, now, backoff)
    {
      pending := [];
      for i := 0 to |profiles|
        invariant (State(), pending) == ClaimAll(old(State()), profiles[..i], probes, now, backoff)
      {
        assert profiles[..i + 1][..i] == profiles[..i];
        var p := profiles[i];
        if p !in probes || p in inflight {
          continue;
        }
        if p in retryAfter && retryAfter[p] > now {
          continue;
        }
        if !NeedsRefresh(probes[p].expiresAt, now, EXPIRY_SKEW) || !probes[p].hasRefreshToken || KnownDead(probes[p]) {
          continue;
        }
        pending := pending + [ClaimedProfile(p, probes[p].fingerprint)];
        inflight := inflight + {p};
        retryAfter := retryAfter[p := now + backoff];
      }
      assert profiles[..|profiles|] == profiles;
    }

    method RecordOutcome(p: string, status: RefreshStatus)
      modifies this
      ensures State() == Settle(old(State()), p, status)
    {
      if ClearsBackoff(status) {
        retryAfter := retryAfter - {p};
      }
    }

    method Discard(p: string)
      modifies this
      ensures State() == Finish(old(State()), p)
    {
      inflight := inflight - {p};
    }
  }

  // ---------------------------------------------------------------- interleavings

  /** A worker runs its exchange, then records the outcome, then leaves: two separate critical sections. */
  datatype Worker = Exchanging(profile: string) | Settled(profile: string, status: RefreshStatus)

  datatype Record = Claimed(profile: string, at: real) | Ended(profile: string, status: RefreshStatus)

  datatype System = System(book: Book, workers: seq<Worker>, history: seq<Record>)

  const IDLE := System(Book({}, map[]), [], [])

  datatype ClaimEvent =
    | ClaimCall(profiles: seq<string>, probes: map<string, Probe>, now: real)
    | WorkerSettles(worker: nat, status: RefreshStatus)
    | WorkerLeaves(worker: nat)

  predicate Enabled(s: System, e: ClaimEvent) {
    match e
    case ClaimCall(_, _, _) => true
    case WorkerSettles(i, _) => i < |s.workers| && s.workers[i].Exchanging?
    case WorkerLeaves(i) => i < |s.workers| && s.workers[i].Settled?
  }

  /** One worker per claimed profile, recorded in claim order. */
  function Started(s: System, claimed: seq<ClaimedProfile>, now: real): (r: System)
    ensures r.book == s.book
  {
    if claimed == [] then s
    else
      var r := Started(s, claimed[..|claimed| - 1], now);
      var p := claimed[|claimed| - 1].profile;
      r.(workers := r.workers + [Exchanging(p)], history := r.history + [Claimed(p, now)])
  }

  function Step(s: System, e: ClaimEvent, backoff: real): System
    requires Enabled(s, e)
  {
    match e
    case ClaimCall(profiles, probes, now) =>
      var (book, claimed) := ClaimAll(s.book, profiles, probes, now, backoff);
      Started(s, claimed, now).(book := book)
    case WorkerSettles(i, status) =>
      var p := s.workers[i].profile;
      s.(book := Settle(s.book, p, status), workers := s.workers[i := Settled(p, status)])
    case WorkerLeaves(i) =>
      var worker := s.workers[i];
      System(Finish(s.book, worker.profile), s.workers[..i] + s.workers[i + 1..],
             s.history + [Ended(worker.profile, worker.status)])
  }

  ghost predicate Reachable(s: System, backoff: real, steps: nat)
    decreases steps
  {
    if steps == 0 then s == IDLE
    else
      exists before, e ::
        Reachable(before, backoff, steps - 1) && Enabled(before, e) && s == Step(before, e, backoff)
  }

  // ---------------------------------------------------------------- the invariant

  function LastRecord(h: seq<Record>, p: string): Option<Record> {
    if h == [] then None
    else if h[|h| - 1].profile == p then Some(h[|h| - 1])
    else LastRecord(h[..|h| - 1], p)
  }

  function LastClaim(h: seq<Record>, p: string): Option<real> {
    if h == [] then None
    else if h[|h| - 1].Claimed? && h[|h| - 1].profile == p then Some(h[|h| - 1].at)
    else LastClaim(h[..|h| - 1], p)
  }

  /** In-flight is exactly the profiles with a worker, and no profile has two. */
  ghost predicate OneWorkerEach(s: System) {
    && (forall i, j :: 0 <= i < j < |s.workers| ==> s.workers[i].profile != s.workers[j].profile)
    && (forall p :: p in s.book.inflight <==> exists i :: 0 <= i < |s.workers| && s.workers[i].profile == p)
  }

  predicate BacksOff(s: System, p: string, backoff: real) {
    && LastClaim(s.history, p).Some?
    && p in s.book.retryAfter && s.book.retryAfter[p] == LastClaim(s.history, p).value + backoff
  }

  ghost predicate Booked(s: System, backoff: real) {
    && (forall i :: 0 <= i < |s.workers| ==>
          var worker := s.workers[i];
          && LastRecord(s.history, worker.profile).Some? && LastRecord(s.history, worker.profile).value.Claimed?
          && (worker.Exchanging? || !ClearsBackoff(worker.status) ==> BacksOff(s, worker.profile, backoff)))
    && (forall p :: p !in s.book.inflight && LastRecord(s.history, p).Some? ==>
          var r := LastRecord(s.history, p).value;
          r.Ended? && (!ClearsBackoff(r.status) ==> BacksOff(s, p, backoff)))
  }

  /** i and j are successive claims of one profile. */
  predicate Successive(h: seq<Record>, i: nat, j: nat) {
    && i < j < |h| && h[i].Claimed? && h[j].Claimed? && h[i].profile == h[j].profile
    && forall k :: i < k < j ==> !(h[k].Claimed? && h[k].profile == h[i].profile)
  }

  /** The earlier claim ended in between, either well or long enough ago. */
  predicate EndedBetween(h: seq<Record>, i: nat, j: nat, backoff: real)
    requires i < j < |h| && h[i].Claimed? && h[j].Claimed?
  {
    exists k :: i < k < j && h[k].Ended? && h[k].profile == h[i].profile
      && (ClearsBackoff(h[k].status) || h[j].at >= h[i].at + backoff)
  }

  ghost predicate Spaced(h: seq<Record>, backoff: real) {
    forall i, j :: Successive(h, i, j) ==> EndedBetween(h, i, j, backoff)
  }

  ghost predicate Inv(s: System, backoff: real) {
    OneWorkerEach(s) && Booked(s, backoff) && Spaced(s.history, backoff)
  }

  /** The k-th record is p's, and the last of p. */
  predicate IsLastOf(h: seq<Record>, p: string, k: nat) {
    k < |h| && h[k].profile == p && forall m :: k < m < |h| ==> h[m].profile != p
  }

  predicate IsLastClaimOf(h: seq<Record>, p: string, k: nat) {
    k < |h| && h[k].Claimed? && h[k].profile == p && forall m :: k < m < |h| ==> !(h[m].Claimed? && h[m].profile == p)
  }

  lemma {:induction false} LastRecordIs(h: seq<Record>, p: string, k: nat)
    requires IsLastOf(h, p, k)
    ensures LastRecord(h, p) == Some(h[k])
  {
    if k < |h| - 1 {
      LastRecordIs(h[..|h| - 1], p, k);
    }
  }

  lemma {:induction false} LastClaimIs(h: seq<Record>, p: string, k: nat)
    requires IsLastClaimOf(h, p, k)
    ensures LastClaim(h, p) == Some(h[k].at)
  {
    if k < |h| - 1 {
      LastClaimIs(h[..|h| - 1], p, k);
    }
  }

  lemma {:induction false} FindLast(h: seq<Record>, p: string, i: nat) returns (k: nat)
    requires i < |h| && h[i].profile == p
    ensures i <= k && IsLastOf(h, p, k)
  {
    if h[|h| - 1].profile == p {
      k := |h| - 1;
    } else {
      k := FindLast(h[..|h| - 1], p, i);
    }
  }

  lemma SpacedAppend(h: seq<Record>, r: Record, backoff: real)
    requires Spaced(h, backoff)
    requires r.Claimed? ==> forall i :: Successive(h + [r], i, |h|) ==> EndedBetween(h + [r], i, |h|, backoff)
    ensures Spaced(h + [r], backoff)
  {
    var g := h + [r];
    forall i: nat, j: nat | Successive(g, i, j) && j < |h| ensures EndedBetween(g, i, j, backoff) {
      assert forall k :: 0 <= k < |h| ==> g[k] == h[k];
      assert Successive(h, i, j);
      var k :| i < k < j && h[k].Ended? && h[k].profile == h[i].profile
        && (ClearsBackoff(h[k].status) || h[j].at >= h[i].at + backoff);
      assert g[k] == h[k];
    }
  }

  /** A profile that may be claimed again has its last claim behind it: ended well, or the back-off over. */
  lemma NewClaimIsSpaced(s: System, p: string, probe: Probe, now: real, backoff: real)
    requires Inv(s, backoff) && MayClaim(s.book, p, probe, now)
    ensures Spaced(s.history + [Claimed(p, now)], backoff)
  {
    var h, r := s.history, Claimed(p, now);
    var g := h + [r];
    forall i: nat | Successive(g, i, |h|) ensures EndedBetween(g, i, |h|, backoff) {
      assert h[i] == g[i];
      assert forall m :: 0 <= m < |h| ==> g[m] == h[m];
      var k := FindLast(h, p, i);
      LastRecordIs(h, p, k);
      LastClaimIs(h, p, i);
      assert h[k].Ended? && g[k] == h[k];
    }
    SpacedAppend(h, r, backoff);
  }

  function WithClaim(s: System, p: string, now: real, backoff: real): System {
    System(ClaimOne(s.book, p, now, backoff), s.workers + [Exchanging(p)], s.history + [Claimed(p, now)])
  }

  lemma ClaimKeepsWorkers(s: System, p: string, now: real, backoff: real)
    requires OneWorkerEach(s) && p !in s.book.inflight
    ensures OneWorkerEach(WithClaim(s, p, now, backoff))
  {
    var t := WithClaim(s, p, now, backoff);
    forall q ensures q in t.book.inflight <==> exists i :: 0 <= i < |t.workers| && t.workers[i].profile == q {
      if q == p {
        assert t.workers[|s.workers|].profile == q;
      } else if q in s.book.inflight {
        var i :| 0 <= i < |s.workers| && s.workers[i].profile == q;
        assert t.workers[i].profile == q;
      }
    }
    forall i | 0 <= i < |s.workers| ensures t.workers[i] == s.workers[i] && s.workers[i].profile != p {}
  }

  lemma ClaimKeepsBooked(s: System, p: string, now: real, backoff: real)
    requires OneWorkerEach(s) && Booked(s, backoff) && p !in s.book.inflight
    ensures Booked(WithClaim(s, p, now, backoff), backoff)
  {
    var t := WithClaim(s, p, now, backoff);
    assert t.history[..|s.history|] == s.history;
    forall i | 0 <= i < |s.workers| ensures t.workers[i] == s.workers[i] && s.workers[i].profile != p {}
  }

  lemma ClaimKeepsInv(s: System, p: string, probe: Probe, now: real, backoff: real)
    requires Inv(s, backoff) && MayClaim(s.book, p, probe, now)
    ensures Inv(WithClaim(s, p, now, backoff), backoff)
  {
    NewClaimIsSpaced(s, p, probe, now, backoff);
    ClaimKeepsWorkers(s, p, now, backoff);
    ClaimKeepsBooked(s, p, now, backoff);
  }

  lemma {:induction false} ClaimCallKeepsInv(
    s: System, profiles: seq<string>, probes: map<string, Probe>, now: real, backoff: real)
    requires Inv(s, backoff)
    ensures Inv(Step(s, ClaimCall(profiles, probes, now), backoff), backoff)
  {
    if profiles == [] {
      assert Step(s, ClaimCall(profiles, probes, now), backoff) == s;
    } else {
      var front, p := profiles[..|profiles| - 1], profiles[|profiles| - 1];
      ClaimCallKeepsInv(s, front, probes, now, backoff);
      var mid := Step(s, ClaimCall(front, probes, now), backoff);
      if p in probes && MayClaim(mid.book, p, probes[p], now) {
        ClaimKeepsInv(mid, p, probes[p], now, backoff);
        var claimed := ClaimAll(s.book, front, probes, now, backoff).1;
        var c := ClaimedProfile(p, probes[p].fingerprint);
        assert (claimed + [c])[..|claimed|] == claimed;
      }
    }
  }

  lemma SettleKeepsInv(s: System, i: nat, status: RefreshStatus, backoff: real)
    requires Inv(s, backoff) && Enabled(s, WorkerSettles(i, status))
    ensures Inv(Step(s, WorkerSettles(i, status), backoff), backoff)
  {
    var t, p := Step(s, WorkerSettles(i, status), backoff), s.workers[i].profile;
    forall j | 0 <= j < |t.workers| ensures t.workers[j].profile == s.workers[j].profile {}
    forall q ensures q in t.book.inflight <==> exists j :: 0 <= j < |t.workers| && t.workers[j].profile == q {
      if q in s.book.inflight {
        var j :| 0 <= j < |s.workers| && s.workers[j].profile == q;
        assert t.workers[j].profile == q;
      }
    }
    assert p in s.book.inflight;
  }

  lemma LeaveKeepsWorkers(s: System, i: nat, backoff: real)
    requires OneWorkerEach(s) && Enabled(s, WorkerLeaves(i))
    ensures OneWorkerEach(Step(s, WorkerLeaves(i), backoff))
  {
    var t, p := Step(s, WorkerLeaves(i), backoff), s.workers[i].profile;
    forall j | 0 <= j < |t.workers| ensures t.workers[j] == s.workers[if j < i then j else j + 1] {}
    forall q ensures q in t.book.inflight <==> exists j :: 0 <= j < |t.workers| && t.workers[j].profile == q {
      if q in s.book.inflight && q != p {
        var j :| 0 <= j < |s.workers| && s.workers[j].profile == q;
        assert t.workers[if j < i then j else j - 1].profile == q;
      }
    }
  }

  lemma LeaveKeepsInv(s: System, i: nat, backoff: real)
    requires Inv(s, backoff) && Enabled(s, WorkerLeaves(i))
    ensures Inv(Step(s, WorkerLeaves(i), backoff), backoff)
  {
    var t, worker := Step(s, WorkerLeaves(i), backoff), s.workers[i];
    assert t.history[..|s.history|] == s.history;
    SpacedAppend(s.history, Ended(worker.profile, worker.status), backoff);
    LeaveKeepsWorkers(s, i, backoff);
    forall j | 0 <= j < |t.workers| ensures t.workers[j] == s.workers[if j < i then j else j + 1] {}
  }

  lemma {:induction false} InvAlways(s: System, backoff: real, steps: nat)
    requires Reachable(s, backoff, steps)
    ensures Inv(s, backoff)
    decreases steps
  {
    if steps > 0 {
      var before, e :| Reachable(before, backoff, steps - 1) && Enabled(before, e) && s == Step(before, e, backoff);
      InvAlways(before, backoff, steps - 1);
      match e
      case ClaimCall(profiles, probes, now) => ClaimCallKeepsInv(before, profiles, probes, now, backoff);
      case WorkerSettles(i, status) => SettleKeepsInv(before, i, status, backoff);
      case WorkerLeaves(i) => LeaveKeepsInv(before, i, backoff);
    }
  }

  /**
   * In every interleaving of claiming calls and worker completions: the in-flight set is exactly the profiles
   * with a claimed, unfinished exchange; no profile has two at once; and two successive claims of a profile
   * are at least the back-off apart unless the earlier one ended refreshed or skipped.
   */
  lemma ClaimsAreExclusiveAndSpaced(s: System, backoff: real, steps: nat)
    requires Reachable(s, backoff, steps)
    ensures forall i, j :: 0 <= i < j < |s.workers| ==> s.workers[i].profile != s.workers[j].profile
    ensures s.book.inflight == set i | 0 <= i < |s.workers| :: s.workers[i].profile
    ensures forall i, j :: Successive(s.history, i, j) ==> EndedBetween(s.history, i, j, backoff)
  {
    InvAlways(s, backoff, steps);
  }
}
