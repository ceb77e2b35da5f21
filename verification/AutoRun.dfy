/**
 * The scheduler of auto_run.py: each running command holds one lease on the account it was given, by the same greedy
 * rule as the pool, without health or routes.
 */
module AutoRun {
  import opened Wrappers
  import opened AccountUsages
  import opened Pool
  import opened PoolFairness
  import opened Coordinator

  /** A lease is owned by the process of its command; `nextId` stands for the randomness of lease ids. */
  datatype RunState = RunState(leases: seq<PoolLease>, selectedAt: map<string, real>, nextId: nat)

  predicate StillRuns(l: PoolLease, pid: int, alive: set<int>) {
    l.owner != Pid(pid) && l.owner.Pid? && l.owner.pid in alive
  }

  /** `_prune_leases`: leases of dead processes go, and any left by this one. */
  function KeepRunning(leases: seq<PoolLease>, pid: int, alive: set<int>): (r: seq<PoolLease>)
    ensures forall l :: l in r <==> l in leases && StillRuns(l, pid, alive)
  {
    if leases == [] then []
    else
      var front, last := KeepRunning(leases[..|leases| - 1], pid, alive), leases[|leases| - 1];
      if StillRuns(last, pid, alive) then front + [last] else front
  }

  function RunCandidates(
    leases: seq<PoolLease>, profiles: seq<string>, usages: map<string, AccountUsage>): (r: seq<Candidate>)
    ensures forall c :: c in r ==>
      && c.profile in profiles && CapacityOf(usages, c.profile).Some?
      && c == CandidateFor(EMPTY_POOL.(leases := leases), c.profile, CapacityOf(usages, c.profile).value)
    ensures forall p :: p in profiles && CapacityOf(usages, p).Some? ==>
      CandidateFor(EMPTY_POOL.(leases := leases), p, CapacityOf(usages, p).value) in r
  {
    if profiles == [] then []
    else
      var front, p := RunCandidates(leases, profiles[..|profiles| - 1], usages), profiles[|profiles| - 1];
      if CapacityOf(usages, p).None? then front
      else front + [CandidateFor(EMPTY_POOL.(leases := leases), p, CapacityOf(usages, p).value)]
  }

  datatype Start = Start(profiles: seq<string>, usages: map<string, AccountUsage>, pid: int, now: real, alive: set<int>)

  /** The locked step at the start of a command; none when no account has quota. */
  function Acquire(st: RunState, a: Start): (RunState, Option<PoolLease>) {
    var live := KeepRunning(st.leases, a.pid, a.alive);
    var cands := RunCandidates(live, a.profiles, a.usages);
    if cands == [] then (st, None)
    else
      var p := Best(cands, st.selectedAt).profile;
      var lease := PoolLease(st.nextId, p, Pid(a.pid), a.now, a.now, None);
      (RunState(live + [lease], st.selectedAt[p := a.now], st.nextId + 1), Some(lease))
  }

  /** The locked step at its end. */
  function Finish(st: RunState, id: nat): RunState {
    st.(leases := WithoutLease(st.leases, id))
  }

  // ---------------------------------------------------------------- who holds what

  /** The process of another command that is still running. */
  predicate OfAnother(owner: Owner, a: Start) {
    match owner
    case Pid(pid) => pid in a.alive && pid != a.pid
    case OtherOwner(_) => false
  }

  /**
   * After the start of a command the leases are those of the other running commands and the one it is given; it is
   * recorded when that account was selected. A command that is given none changes nothing.
   */
  lemma StartTakesOne(st: RunState, a: Start)
    ensures var (after, lease) := Acquire(st, a);
      if lease.None? then after == st && forall p :: p in a.profiles ==> CapacityOf(a.usages, p).None?
      else
        var l := lease.value;
        && (forall m :: m in after.leases <==> m == l || (m in st.leases && OfAnother(m.owner, a)))
        && l.owner == Pid(a.pid) && l.startedAt == a.now && l.heartbeat == a.now && l.id == st.nextId
        && l.profile in a.profiles && after.selectedAt == st.selectedAt[l.profile := a.now]
        && after.nextId == st.nextId + 1
  {
  }

  // ---------------------------------------------------------------- spreading

  /** Commands started one after another over the same accounts, each still running when the later ones start. */
  predicate AllRunning(starts: seq<Start>, profiles: seq<string>, usages: map<string, AccountUsage>) {
    && (forall i :: 0 <= i < |starts| ==> starts[i].profiles == profiles && starts[i].usages == usages)
    && (forall i, j :: 0 <= i < j < |starts| ==> starts[i].pid != starts[j].pid && starts[i].pid in starts[j].alive)
  }

  function AcquireAll(st: RunState, starts: seq<Start>): RunState {
    if starts == [] then st else Acquire(AcquireAll(st, starts[..|starts| - 1]), starts[|starts| - 1]).0
  }

  /** The chosen account would not gain by moving its new lease to any other. */
  lemma AcquireHasNoGain(st: RunState, a: Start, q: string)
    requires q in a.profiles && CapacityOf(a.usages, q).Some?
    ensures var (after, lease) := Acquire(st, a);
      var live := KeepRunning(st.leases, a.pid, a.alive);
      lease.Some? && lease.value.profile in a.profiles && CapacityOf(a.usages, lease.value.profile).Some?
      && NoGain(Quota(a.usages, lease.value.profile), LeaseCount(live, lease.value.profile) + 1,
                Quota(a.usages, q), LeaseCount(live, q))
  {
    var live := KeepRunning(st.leases, a.pid, a.alive);
    var pool := EMPTY_POOL.(leases := live);
    var cands := RunCandidates(live, a.profiles, a.usages);
    var mine := CandidateFor(pool, q, CapacityOf(a.usages, q).value);
    assert mine in cands;
    var best := Best(cands, st.selectedAt);
    assert !KeyLess(mine, best, st.selectedAt);
    HigherEffectiveHasNoGain(pool, best.profile, CapacityOf(a.usages, best.profile).value, q,
      CapacityOf(a.usages, q).value);
  }

  lemma {:induction false} NonePruned(leases: seq<PoolLease>, pid: int, alive: set<int>)
    requires forall l :: l in leases ==> StillRuns(l, pid, alive)
    ensures KeepRunning(leases, pid, alive) == leases
  {
    if leases != [] {
      NonePruned(leases[..|leases| - 1], pid, alive);
    }
  }

  lemma AcquireKeepsFair(st: RunState, a: Start)
    requires Fair(st.leases, a.profiles, a.usages) && forall l :: l in st.leases ==> StillRuns(l, a.pid, a.alive)
    ensures Fair(Acquire(st, a).0.leases, a.profiles, a.usages)
    ensures forall l :: l in Acquire(st, a).0.leases ==> l in st.leases || l.owner == Pid(a.pid)
  {
    NonePruned(st.leases, a.pid, a.alive);
    var (after, lease) := Acquire(st, a);
    if lease.Some? {
      forall q | q in a.profiles && CapacityOf(a.usages, q).Some?
        ensures NoGain(Quota(a.usages, lease.value.profile), LeaseCount(st.leases, lease.value.profile) + 1,
                       Quota(a.usages, q), LeaseCount(st.leases, q))
      {
        AcquireHasNoGain(st, a, q);
      }
      GreedyStepKeepsFair(st.leases, lease.value, a.profiles, a.usages);
    }
  }

  lemma {:induction false} AcquiresAreFair(
    st: RunState, starts: seq<Start>, profiles: seq<string>, usages: map<string, AccountUsage>)
    requires st.leases == [] && AllRunning(starts, profiles, usages)
    ensures Fair(AcquireAll(st, starts).leases, profiles, usages)
    ensures forall l :: l in AcquireAll(st, starts).leases ==>
      exists i :: 0 <= i < |starts| && l.owner == Pid(starts[i].pid)
  {
    if starts != [] {
      var k := |starts| - 1;
      var front := starts[..k];
      AcquiresAreFair(st, front, profiles, usages);
      var mid := AcquireAll(st, front);
      forall l | l in mid.leases ensures StillRuns(l, starts[k].pid, starts[k].alive) {
        var i :| 0 <= i < k && l.owner == Pid(front[i].pid);
        assert front[i] == starts[i];
      }
      AcquireKeepsFair(mid, starts[k]);
      forall l | l in AcquireAll(st, starts).leases
        ensures exists i :: 0 <= i < |starts| && l.owner == Pid(starts[i].pid)
      {
        if l in mid.leases {
          var i :| 0 <= i < k && l.owner == Pid(front[i].pid);
          assert front[i] == starts[i];
        }
      }
    }
  }

  /** Running commands are spread as evenly as any placement of as many commands could. */
  lemma RunsAreSpreadFairly(
    st: RunState, starts: seq<Start>, profiles: seq<string>, usages: map<string, AccountUsage>, other: string -> nat,
    bound: real)
    requires st.leases == [] && Distinct(profiles) && AllRunning(starts, profiles, usages)
    requires Total(WithQuota(profiles, usages), other) == |AcquireAll(st, starts).leases|
    requires Guarantees(bound, WithQuota(profiles, usages), usages, other)
    ensures Guarantees(bound, WithQuota(profiles, usages), usages, p => LeaseCount(AcquireAll(st, starts).leases, p))
  {
    AcquiresAreFair(st, starts, profiles, usages);
    FairIsOptimal(AcquireAll(st, starts).leases, profiles, usages, other, bound);
  }

  // ---------------------------------------------------------------- leases of running commands

  datatype Event = Starts(a: Start) | Ends(id: nat) | Dies(pid: int)

  /** The scheduler file, and the commands that have a lease and are running: their lease ids and processes. */
  datatype Scene = Scene(st: RunState, running: map<nat, int>)

  /** A command starts in a new process; it ends once; the processes of running commands are alive. */
  predicate Possible(w: Scene, e: Event) {
    match e
    case Starts(a) => forall id :: id in w.running ==> w.running[id] != a.pid && w.running[id] in a.alive
    case Ends(id) => id in w.running
    case Dies(pid) => true
  }

  function Step(w: Scene, e: Event): Scene {
    match e
    case Starts(a) =>
      var (st, lease) := Acquire(w.st, a);
      Scene(st, if lease.Some? then w.running[lease.value.id := a.pid] else w.running)
    case Ends(id) => Scene(Finish(w.st, id), w.running - {id})
    case Dies(pid) => w.(running := map id | id in w.running && w.running[id] != pid :: w.running[id])
  }

  function RunAll(st: RunState, es: seq<Event>): Scene {
    if es == [] then Scene(st, map[]) else Step(RunAll(st, es[..|es| - 1]), es[|es| - 1])
  }

  predicate Leased(leases: seq<PoolLease>, id: nat, pid: int) {
    exists i :: 0 <= i < |leases| && leases[i].id == id && leases[i].owner == Pid(pid)
  }

  /** Every running command has its lease, no other command has it, and new ids are new. */
  predicate AllLeased(w: Scene) {
    && (forall id :: id in w.running ==> Leased(w.st.leases, id, w.running[id]))
    && (forall l :: l in w.st.leases && l.id in w.running ==> l.owner == Pid(w.running[l.id]))
    && (forall l :: l in w.st.leases ==> l.id < w.st.nextId)
  }

  /** A start that gets an account, and takes no process for that of a command that has ended. */
  predicate SeesTruly(w: Scene, e: Event) {
    && e.Starts? && Acquire(w.st, e.a).1.Some?
    && forall l :: l in w.st.leases && StillRuns(l, e.a.pid, e.a.alive) ==> l.id in w.running
  }

  lemma StepKeepsLeased(w: Scene, e: Event)
    requires AllLeased(w) && Possible(w, e)
    ensures AllLeased(Step(w, e))
    ensures SeesTruly(w, e) ==> forall l :: l in Step(w, e).st.leases ==> l.id in Step(w, e).running
  {
    if e.Starts? {
      StartKeepsLeased(w, e.a);
    } else {
      var after := Step(w, e);
      forall id | id in after.running ensures Leased(after.st.leases, id, after.running[id]) {
        LeaseStays(w.st.leases, after.st.leases, id, w.running[id]);
      }
    }
  }

  /** A lease stays as long as nothing removes its id or prunes its process. */
  lemma LeaseStays(before: seq<PoolLease>, after: seq<PoolLease>, id: nat, pid: int)
    requires Leased(before, id, pid)
    requires forall l :: l in before && l.id == id && l.owner == Pid(pid) ==> l in after
    ensures Leased(after, id, pid)
  {
    var i :| 0 <= i < |before| && before[i].id == id && before[i].owner == Pid(pid);
    assert before[i] in after;
  }

  lemma StartKeepsLeased(w: Scene, a: Start)
    requires AllLeased(w) && Possible(w, Starts(a))
    ensures AllLeased(Step(w, Starts(a)))
  {
    var after := Step(w, Starts(a));
    forall id | id in after.running ensures Leased(after.st.leases, id, after.running[id]) {
      if id in w.running {
        LeaseStays(w.st.leases, after.st.leases, id, w.running[id]);
      } else {
        assert after.st.leases[|after.st.leases| - 1].id == id;
      }
    }
  }

  /**
   * No running command loses its lease, whatever other commands start, end or die; and a start that sees truly which
   * processes live leaves the leases of running commands only.
   */
  lemma {:induction false} RunningCommandsKeepLeases(st: RunState, es: seq<Event>)
    requires st.leases == [] && forall i :: 0 <= i < |es| ==> Possible(RunAll(st, es[..i]), es[i])
    ensures AllLeased(RunAll(st, es))
    ensures es != [] && SeesTruly(RunAll(st, es[..|es| - 1]), es[|es| - 1]) ==>
      forall l :: l in RunAll(st, es).st.leases ==> l.id in RunAll(st, es).running
  {
    if es != [] {
      var front := es[..|es| - 1];
      assert forall i :: 0 <= i <= |front| ==> front[..i] == es[..i];
      RunningCommandsKeepLeases(st, front);
      assert Possible(RunAll(st, es[..|es| - 1]), es[|es| - 1]);
      StepKeepsLeased(RunAll(st, front), es[|es| - 1]);
    }
  }

  /** The process has died in the course of the run. */
  predicate HasDied(es: seq<Event>, owner: Owner) {
    exists i :: 0 <= i < |es| && es[i].Dies? && owner == Pid(es[i].pid)
  }

  /**
   * Every lease on file is of a running command, or of one whose process died: a command that ends gives its back.
   */
  lemma {:induction false} EndedCommandsGiveBack(st: RunState, es: seq<Event>)
    requires st.leases == [] && forall i :: 0 <= i < |es| ==> Possible(RunAll(st, es[..i]), es[i])
    ensures var w := RunAll(st, es); forall l :: l in w.st.leases ==> l.id in w.running || HasDied(es, l.owner)
  {
    if es != [] {
      var front, e := es[..|es| - 1], es[|es| - 1];
      assert forall i :: 0 <= i <= |front| ==> front[..i] == es[..i];
      EndedCommandsGiveBack(st, front);
      RunningCommandsKeepLeases(st, front);
      var before, after := RunAll(st, front), RunAll(st, es);
      forall l | l in after.st.leases ensures l.id in after.running || HasDied(es, l.owner) {
        if l in before.st.leases && HasDied(front, l.owner) {
          var i :| 0 <= i < |front| && front[i].Dies? && l.owner == Pid(front[i].pid);
          assert es[i].Dies?;
        } else if e.Starts? && l in before.st.leases {
          assert l.id in before.running;
        }
      }
    }
  }

  // ---------------------------------------------------------------- in place

  class AutoRunScheduler {
    var leases: seq<PoolLease>
    var selectedAt: map<string, real>
    var nextId: nat

    constructor ()
      ensures State() == RunState([], map[], 0)
    {
      leases, selectedAt, nextId := [], map[], 0;
    }

    function State(): RunState
      reads this
    {
      RunState(leases, selectedAt, nextId)
    }

    method PrunedLeases(pid: int, alive: set<int>) returns (live: seq<PoolLease>)
      ensures live == KeepRunning(leases, pid, alive)
    {
      live := [];
      for i := 0 to |leases|
        invariant live == KeepRunning(leases[..i], pid, alive)
      {
        assert leases[..i + 1][..i] == leases[..i];
        if StillRuns(leases[i], pid, alive) {
          live := live + [leases[i]];
        }
      }
      assert leases[..|leases|] == leases;
    }

    /** The first half of `choose_auto_run_profile`; the other is the pool's choice of the best candidate. */
    method CandidateList(live: seq<PoolLease>, profiles: seq<string>, usages: map<string, AccountUsage>)
      returns (found: seq<Candidate>)
      ensures found == RunCandidates(live, profiles, usages)
    {
      var counts := CountLeases(live);
      found := [];
      for i := 0 to |profiles|
        invariant found == RunCandidates(live, profiles[..i], usages)
      {
        assert profiles[..i + 1][..i] == profiles[..i];
        var p := profiles[i];
        var capacity := CapacityOf(usages, p);
        if capacity.None? {
          continue;
        }
        var active := if p in counts then counts[p] else 0;
        found := found + [Candidate(
          p, capacity.value.remaining, capacity.value.remaining / (active + 1) as real, active,
            capacity.value.resetsAt)];
      }
      assert profiles[..|profiles|] == profiles;
    }

    method AcquireProfile(a: Start) returns (lease: Option<PoolLease>)
      modifies this
      ensures (State(), lease) == Acquire(old(State()), a)
    {
      var live := PrunedLeases(a.pid, a.alive);
      var cands := CandidateList(live, a.profiles, a.usages);
      if cands == [] {
        return None;
      }
      var p := Best(cands, selectedAt).profile;
      var l := PoolLease(nextId, p, Pid(a.pid), a.now, a.now, None);
      leases := live + [l];
      selectedAt := selectedAt[p := a.now];
      nextId := nextId + 1;
      return Some(l);
    }

    method FinishRun(id: nat)
      modifies this
      ensures State() == Finish(old(State()), id)
    {
      var kept := [];
      for i := 0 to |leases|
        invariant State() == old(State()) && kept == WithoutLease(leases[..i], id)
      {
        assert leases[..i + 1][..i] == leases[..i];
        if leases[i].id != id {
          kept := kept + [leases[i]];
        }
      }
      assert leases[..|leases|] == leases;
      leases := kept;
    }
  }
}
