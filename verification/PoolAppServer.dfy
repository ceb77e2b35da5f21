/** The server object of pool_server.py: its tables updated in place, handler by handler, as Multiplexer says. */
module AppServer {
  import opened Wrappers
  import opened Dicts
  import opened Pool
  import opened Coordinator
  import opened Router
  import M = Multiplexer
  import opened Multiplexer
  import opened MuxStructure
  import opened FanOutResults

  lemma AppendAssociates<T>(a: seq<T>, b: seq<T>, c: seq<T>)
    ensures a + (b + c) == (a + b) + c
  {
  }

  function FailOne(r: (Dict<Key, Pending>, seq<Output>, seq<nat>), e: (Key, Pending), p: string)
    : (Dict<Key, Pending>, seq<Output>, seq<nat>)
  {
    if e.0.0 != p then (r.0 + [e], r.1, r.2)
    else (r.0, r.1 + [Reply(e.1.client, ErrorContent(BACKEND_FAILED))],
          if e.1.lease.Some? then r.2 + [e.1.lease.value] else r.2)
  }

  /** What the loop over a snapshot has left in the table. */
  ghost predicate PendingLeft(
    pending: Dict<Key, Pending>, done: (Dict<Key, Pending>, seq<Output>, seq<nat>), snapshot: Dict<Key, Pending>,
      i: nat)
    requires i <= |snapshot|
  {
    UniqueKeys(pending) && pending == done.0 + snapshot[i..]
  }

  lemma PendingLeftNext(
    pending: Dict<Key, Pending>, done: (Dict<Key, Pending>, seq<Output>, seq<nat>), snapshot: Dict<Key, Pending>,
      i: nat,
    p: string)
    requires i < |snapshot| && PendingLeft(pending, done, snapshot, i)
    ensures var rest := if snapshot[i].0.0 == p then Pop(pending, snapshot[i].0) else pending;
      PendingLeft(rest, FailOne(done, snapshot[i], p), snapshot, i + 1)
  {
    KeepNext(done.0, snapshot[i..]);
    PopNext(done.0, snapshot[i..]);
  }

  lemma FailPendingNext(d: Dict<Key, Pending>, i: nat, p: string)
    requires i < |d|
    ensures FailPending(d[..i + 1], p) == FailOne(FailPending(d[..i], p), d[i], p)
  {
    assert d[..i + 1][..i] == d[..i];
  }

  lemma ReleaseNext(pool: PoolState, done: (Dict<Key, Pending>, seq<Output>, seq<nat>), e: (Key, Pending), p: string)
    ensures ReleaseAll(pool, FailOne(done, e, p).2) ==
      if e.0.0 == p && e.1.lease.Some? then Release(ReleaseAll(pool, done.2), e.1.lease.value)
        else ReleaseAll(pool, done.2)
  {
    if e.1.lease.Some? {
      assert (done.2 + [e.1.lease.value])[..|done.2|] == done.2;
    }
  }

  function FailShare(r: (Dict<Key, nat>, seq<Aggregate>, seq<Output>), e: (Key, nat), p: string)
    : (Dict<Key, nat>, seq<Aggregate>, seq<Output>)
    requires e.1 < |r.1|
  {
    if e.0.0 != p then (r.0 + [e], r.1, r.2)
    else
      var (after, more) := AnswerAggregate(r.1, e.1, LostResponse(r.1[e.1].client));
      (r.0, after, r.2 + more)
  }

  ghost predicate SharesLeft(
    aggPending: Dict<Key, nat>, done: (Dict<Key, nat>, seq<Aggregate>, seq<Output>), snapshot: Dict<Key, nat>, i: nat)
    requires i <= |snapshot|
  {
    UniqueKeys(aggPending) && aggPending == done.0 + snapshot[i..]
  }

  lemma SharesLeftNext(
    aggPending: Dict<Key, nat>, done: (Dict<Key, nat>, seq<Aggregate>, seq<Output>), snapshot: Dict<Key, nat>, i: nat,
    p: string)
    requires i < |snapshot| && snapshot[i].1 < |done.1| && SharesLeft(aggPending, done, snapshot, i)
    ensures var rest := if snapshot[i].0.0 == p then Pop(aggPending, snapshot[i].0) else aggPending;
      SharesLeft(rest, FailShare(done, snapshot[i], p), snapshot, i + 1)
  {
    KeepNext(done.0, snapshot[i..]);
    PopNext(done.0, snapshot[i..]);
  }

  lemma FailAggregatesNext(d: Dict<Key, nat>, aggs: seq<Aggregate>, i: nat, p: string)
    requires i < |d| && d[i].1 < |aggs|
    ensures FailAggregates(d[..i + 1], aggs, p) == FailShare(FailAggregates(d[..i], aggs, p), d[i], p)
  {
    assert d[..i + 1][..i] == d[..i];
  }

  lemma KeyedInRange(aggPending: Dict<Key, nat>, aggs: seq<Aggregate>)
    requires ListKeyed(aggPending, aggs)
    ensures forall i :: 0 <= i < |aggPending| ==> aggPending[i].1 < |aggs|
  {
    forall i | 0 <= i < |aggPending| ensures aggPending[i].1 < |aggs| {
      assert aggPending[i] in aggPending;
    }
  }

  lemma UntrackedWf(s: Mux, p: string, id: Id, c: Counting)
    requires Sound(s, c)
    ensures Sound(Untracked(s, p, id), c)
  {
  }

  class PoolAppServer {
    const cfg: Config
    const coordinator: PoolCoordinator
    const table: AppServerRouteTable
    /** The registered backends, with whether their process still runs. */
    var backends: Dict<string, bool>
    var pending: Dict<Key, Pending>
    var aggPending: Dict<Key, nat>
    var aggs: seq<Aggregate>
    var controlLease: Option<Reservation>
    var out: seq<Output>

    constructor (cfg: Config, coordinator: PoolCoordinator)
      requires coordinator.policy == cfg.policy
      ensures this.cfg == cfg && this.coordinator == coordinator && fresh(table)
      ensures Valid() && State() == Start(coordinator.file)
    {
      this.cfg := cfg;
      this.coordinator := coordinator;
      table := new AppServerRouteTable();
      backends, pending, aggPending, aggs, controlLease, out := [], [], [], [], None, [];
    }

    function State(): Mux
      reads this, coordinator, table
    {
      Mux(backends, pending, aggPending, aggs, table.State(), controlLease, coordinator.file, out)
    }

    ghost predicate Valid()
      reads this, coordinator, table
    {
      coordinator.policy == cfg.policy && Sound(State(), Unchecked)
    }

    // -------------------------------------------------------------- losing a backend

    method AnswerOne(i: nat, r: Response)
      requires i < |aggs|
      modifies this`aggs, this`out
      ensures var (after, replies) := AnswerAggregate(old(aggs), i, r); aggs == after && out == old(out) + replies
    {
      var a := aggs[i];
      a := a.(responses := a.responses + [r], expected := a.expected - 1);
      aggs := aggs[i := a];
      if a.expected == 0 {
        var reply := FinishAggregate(Says(a.responses));
        out := out + [Reply(a.client, Content.Combined(reply))];
      }
    }

    method LosePending(key: Key, entry: Pending)
      modifies this`pending, this`out, coordinator
      ensures pending == Pop(old(pending), key) && out == old(out) + [Reply(entry.client, ErrorContent(BACKEND_FAILED))]
      ensures coordinator.file == if entry.lease.Some? then Pool.Release(old(coordinator.file), entry.lease.value)
                                  else old(coordinator.file)
    {
      pending := Pop(pending, key);
      out := out + [Reply(entry.client, ErrorContent(BACKEND_FAILED))];
      if entry.lease.Some? {
        coordinator.Release(entry.lease.value);
      }
    }

    /** The loop over a snapshot of the table has come to i. */
    ghost predicate PendingFailed(
      snapshot: Dict<Key, Pending>, sent: seq<Output>, pool: PoolState, i: nat, p: string)
      requires i <= |snapshot|
      reads this, coordinator
    {
      var done := FailPending(snapshot[..i], p);
      && PendingLeft(pending, done, snapshot, i)
      && out == sent + done.1
      && coordinator.file == ReleaseAll(pool, done.2)
    }

    method FailPendingAt(
      snapshot: Dict<Key, Pending>, i: nat, p: string, ghost sent: seq<Output>, ghost pool: PoolState)
      requires i < |snapshot| && PendingFailed(snapshot, sent, pool, i, p)
      modifies this`pending, this`out, coordinator
      ensures PendingFailed(snapshot, sent, pool, i + 1, p)
    {
      ghost var done := FailPending(snapshot[..i], p);
      FailPendingNext(snapshot, i, p);
      PendingLeftNext(pending, done, snapshot, i, p);
      ReleaseNext(pool, done, snapshot[i], p);
      var (key, entry) := snapshot[i];
      if key.0 == p {
        AppendAssociates(sent, done.1, [Reply(entry.client, ErrorContent(BACKEND_FAILED))]);
        LosePending(key, entry);
      }
    }

    method FailPendingOf(p: string)
      requires UniqueKeys(pending)
      modifies this`pending, this`out, coordinator
      ensures var (kept, replies, freed) := FailPending(old(pending), p);
        pending == kept && out == old(out) + replies && coordinator.file == ReleaseAll(old(coordinator.file), freed)
    {
      var snapshot := pending;
      ghost var sent, pool := out, coordinator.file;
      for i := 0 to |snapshot|
        invariant PendingFailed(snapshot, sent, pool, i, p)
      {
        FailPendingAt(snapshot, i, p, sent, pool);
      }
      assert snapshot[..|snapshot|] == snapshot;
    }

    method LoseShare(key: Key, agg: nat)
      requires agg < |aggs|
      modifies this`aggPending, this`aggs, this`out
      ensures aggPending == Pop(old(aggPending), key)
      ensures var (after, replies) := AnswerAggregate(old(aggs), agg, LostResponse(old(aggs)[agg].client));
        aggs == after && out == old(out) + replies
    {
      aggPending := Pop(aggPending, key);
      AnswerOne(agg, LostResponse(aggs[agg].client));
    }

    ghost predicate SharesFailed(snapshot: Dict<Key, nat>, sent: seq<Output>, before: seq<Aggregate>, i: nat, p: string)
      requires i <= |snapshot|
      reads this
    {
      var done := FailAggregates(snapshot[..i], before, p);
      && SharesLeft(aggPending, done, snapshot, i)
      && out == sent + done.2 && aggs == done.1
    }

    method FailShareAt(
      snapshot: Dict<Key, nat>, i: nat, p: string, ghost sent: seq<Output>, ghost before: seq<Aggregate>)
      requires i < |snapshot| && snapshot[i].1 < |before| && SharesFailed(snapshot, sent, before, i, p)
      modifies this`aggPending, this`aggs, this`out
      ensures SharesFailed(snapshot, sent, before, i + 1, p)
    {
      ghost var done := FailAggregates(snapshot[..i], before, p);
      FailAggregatesNext(snapshot, before, i, p);
      SharesLeftNext(aggPending, done, snapshot, i, p);
      var (key, agg) := snapshot[i];
      if key.0 == p {
        AppendAssociates(sent, done.2, AnswerAggregate(aggs, agg, LostResponse(aggs[agg].client)).1);
        LoseShare(key, agg);
      }
    }

    lemma NoneFailedYet(before: seq<Aggregate>, p: string)
      requires UniqueKeys(aggPending) && aggs == before
      ensures SharesFailed(aggPending, out, before, 0, p)
    {
      assert aggPending[..0] == [] && aggPending[0..] == aggPending;
      assert out + [] == out;
    }

    lemma AllSharesFailed(snapshot: Dict<Key, nat>, sent: seq<Output>, before: seq<Aggregate>, p: string)
      requires SharesFailed(snapshot, sent, before, |snapshot|, p)
      ensures var done := FailAggregates(snapshot, before, p);
        aggPending == done.0 && aggs == done.1 && out == sent + done.2
    {
      assert snapshot[..|snapshot|] == snapshot;
      assert snapshot[|snapshot|..] == [];
    }

    method FailAggregatesOf(p: string)
      requires UniqueKeys(aggPending)
      requires forall i :: 0 <= i < |aggPending| ==> aggPending[i].1 < |aggs|
      modifies this`aggPending, this`aggs, this`out
      ensures var (kept, after, replies) := FailAggregates(old(aggPending), old(aggs), p);
        aggPending == kept && aggs == after && out == old(out) + replies
    {
      var snapshot := aggPending;
      ghost var sent, before := out, aggs;
      NoneFailedYet(before, p);
      for i := 0 to |snapshot|
        invariant SharesFailed(snapshot, sent, before, i, p)
      {
        FailShareAt(snapshot, i, p, sent, before);
      }
      AllSharesFailed(snapshot, sent, before, p);
    }

    /** `_fail_backend` */
    method FailAllOf(p: string)
      requires UniqueKeys(pending) && UniqueKeys(aggPending) && ListKeyed(aggPending, aggs)
      modifies this`pending, this`aggPending, this`aggs, this`out, coordinator
      ensures State() == FailBackend(old(State()), p)
    {
      FailPendingOf(p);
      KeyedInRange(aggPending, aggs);
      FailAggregatesOf(p);
    }

    method DropControlLease()
      modifies this`controlLease, coordinator
      ensures State() == (if old(controlLease).None? then old(State())
        else Freed(old(State()), Some(old(controlLease).value.lease)).(controlLease := None))
    {
      if controlLease.Some? {
        coordinator.Release(controlLease.value.lease);
        controlLease := None;
      }
    }

    method RetireBackend(p: string, w: World)
      requires Valid()
      modifies this, coordinator, table
      ensures Valid() && State() == Retire(old(State()), p, w, cfg)
    {
      RetireWf(State(), p, w, cfg, Unchecked);
      if !Has(backends, p) {
        return;
      }
      backends := Pop(backends, p);
      if table.control == Some(p) {
        DropControlLease();
      }
      coordinator.MarkFailure(p, "process", None, w);
      FailAllOf(p);
    }

    // -------------------------------------------------------------- reaching a backend

    method EnsureBackend(p: string, starts: bool, w: World) returns (up: bool)
      requires Valid()
      modifies this, coordinator, table
      ensures Valid() && (State(), up) == Ensure(old(State()), p, starts, w, cfg)
    {
      EnsureWf(State(), p, starts, w, cfg, Unchecked);
      if Get(backends, p) == Some(true) {
        return true;
      }
      RetireBackend(p, w);
      if !starts {
        return false;
      }
      backends := Put(backends, p, true);
      return true;
    }

    method SelectBackend(
      routeKey: Option<string>, migrate: bool, luck: Luck, w: World) returns (lease: Option<PoolLease>)
      requires Valid()
      modifies this, coordinator, table
      ensures Valid() && (State(), lease) == Select(old(State()), routeKey, migrate, luck, w, cfg)
    {
      SelectWf(State(), routeKey, migrate, luck, w, cfg, Unchecked);
      if luck.fetch.None? {
        return None;
      }
      ghost var before := State();
      var fetch := luck.fetch.value;
      var r := coordinator.Reserve(fetch.profiles, fetch.usages, SelectRequest(routeKey, migrate, cfg), w);
      if !r.Reserved? {
        return None;
      }
      WfLooksAt(before, State(), Unchecked);
      var up := EnsureBackend(r.lease.profile, luck.starts, w);
      if !up {
        coordinator.Release(r.lease.id);
        return None;
      }
      return Some(r.lease);
    }

    method ReachBackend(p: string, luck: Luck, w: World) returns (up: bool)
      requires Valid()
      modifies this, coordinator, table
      ensures Valid() && (State(), up) == Reach(old(State()), p, luck, w, cfg)
    {
      if luck.dies {
        ProcessEnds(p);
      }
      up := EnsureBackend(p, luck.restarts, w);
    }

    /** A write that failed: its lease is released, and its backend retired. */
    method GiveUpOn(p: string, lease: Option<nat>, w: World)
      requires Valid()
      modifies this, coordinator, table
      ensures Valid() && State() == Retire(Freed(old(State()), lease), p, w, cfg)
    {
      ghost var before := State();
      if lease.Some? {
        coordinator.Release(lease.value);
      }
      WfLooksAt(before, State(), Unchecked);
      RetireBackend(p, w);
    }

    method WriteTracked(p: string, id: Id, lease: Option<nat>, luck: Luck, w: World) returns (ok: bool)
      requires Valid() && id != IdNull
      modifies this, coordinator, table
      ensures Valid() && (State(), ok) == Write(old(State()), p, id, lease, true, luck, w, cfg)
    {
      TrackedWf(State(), p, id, lease, Unchecked);
      pending := Put(pending, MessageKey(p, id), Pending(id, lease));
      if luck.written {
        return true;
      }
      UntrackedWf(State(), p, id, Unchecked);
      pending := Pop(pending, MessageKey(p, id));
      GiveUpOn(p, lease, w);
      return false;
    }

    method SendToBackend(p: string, id: Id, lease: Option<nat>, track: bool, luck: Luck, w: World) returns (ok: bool)
      requires Valid()
      modifies this, coordinator, table
      ensures Valid() && (State(), ok) == Send(old(State()), p, id, lease, track, luck, w, cfg)
    {
      var up := ReachBackend(p, luck, w);
      if !up {
        return false;
      }
      if track && id != IdNull {
        ok := WriteTracked(p, id, lease, luck, w);
        return;
      }
      if luck.written {
        return true;
      }
      GiveUpOn(p, lease, w);
      return false;
    }

    // -------------------------------------------------------------- client messages

    method MoveControlBackend(luck: Luck, w: World) returns (ok: bool)
      requires Valid()
      modifies this, coordinator, table
      ensures Valid() && (State(), ok) == MoveControl(old(State()), luck, w, cfg)
    {
      MoveControlWf(State(), luck, w, cfg, Unchecked);
      var migrate := table.control.Some?;
      DropControlLease();
      var lease := SelectBackend(Some(CONTROL_KEY), migrate, luck, w);
      if lease.None? {
        return false;
      }
      table.control := Some(lease.value.profile);
      controlLease := Some(Reservation(lease.value.id, lease.value.profile));
      return true;
    }

    predicate Healthy(p: string, w: World)
      reads this, coordinator, table
      ensures Healthy(p, w) == BackendHealthy(State(), p, w)
    {
      p in coordinator.file.health ==> HealthEligible(coordinator.file.health[p], w.now)
    }

    method Initialize(id: Id, luck: Luck, w: World) returns (ok: bool)
      requires Valid()
      modifies this, coordinator, table
      ensures Valid() && (State(), ok) == HandleInitialize(old(State()), id, luck, w, cfg)
    {
      InitializeWf(State(), id, luck, w, cfg, Unchecked);
      ok := true;
      if table.control.None? || !Healthy(table.control.value, w) {
        ok := MoveControlBackend(luck, w);
      }
      if !ok || table.control.None? {
        return false;
      }
      var p := table.control.value;
      var up := ReachBackend(p, luck, w);
      if !up {
        return false;
      }
      out := out + [Reply(id, InitialResult(p))];
      return true;
    }

    method ListRunning() returns (running: seq<string>)
      ensures running == RunningBackends(backends)
    {
      running := [];
      for i := 0 to |backends|
        invariant running == RunningBackends(backends[..i])
      {
        assert backends[..i + 1][..i] == backends[..i];
        if backends[i].1 {
          running := running + [backends[i].0];
        }
      }
      assert backends[..|backends|] == backends;
    }

    /** Registers the request at each running backend before writing it there; a failed write ends the loop. */
    method AskEach(id: Id, running: seq<string>, agg: nat, listed: nat) returns (ok: bool)
      modifies this`aggPending
      ensures aggPending == Registered(old(aggPending), running, id, agg, if listed < |running| then listed + 1
        else |running|)
      ensures ok == (listed >= |running|)
    {
      ghost var before := aggPending;
      for index := 0 to |running|
        invariant index <= listed
        invariant aggPending == Registered(before, running, id, agg, index)
      {
        aggPending := Put(aggPending, ListKey(id, index, running[index]), agg);
        if index == listed {
          return false;
        }
      }
      return true;
    }

    method FanOutList(id: Id, running: seq<string>, luck: Luck) returns (ok: bool)
      requires running == RunningBackends(backends)
      modifies this`aggs, this`aggPending
      ensures (State(), ok) == FanOut(old(State()), id, luck)
    {
      aggs := aggs + [Aggregate(id, |running|, [])];
      ok := AskEach(id, running, |aggs| - 1, luck.listed);
    }

    /** Moves control when there is none, or it does not run, or it is unhealthy. */
    method CheckControl(luck: Luck, w: World) returns (ok: bool)
      requires Valid()
      modifies this, coordinator, table
      ensures Valid() && (State(), ok) == Controlled(old(State()), luck, w, cfg)
    {
      var control := table.control;
      if control.None? || Get(backends, control.value) != Some(true) || !Healthy(control.value, w) {
        ok := MoveControlBackend(luck, w);
      } else {
        ok := true;
      }
    }

    method Global(verb: string, id: Id, luck: Luck, w: World) returns (ok: bool)
      requires Valid()
      modifies this, coordinator, table
      ensures Valid() && (State(), ok) == HandleGlobal(old(State()), verb, id, luck, w, cfg)
    {
      GlobalWf(State(), verb, id, luck, w, cfg, Unchecked);
      ok := CheckControl(luck, w);
      if !ok || table.control.None? {
        return false;
      }
      var running := ListRunning();
      if verb != "thread/list" || running == [] {
        ok := SendToBackend(table.control.value, id, None, true, luck, w);
      } else {
        ok := FanOutList(id, running, luck);
      }
    }

    method Routed(p: string, routeKey: Option<string>, id: Id, luck: Luck, w: World) returns (ok: bool)
      requires Valid()
      modifies this, coordinator, table
      ensures Valid() && (State(), ok) == HandleRouted(old(State()), p, routeKey, id, luck, w, cfg)
    {
      if routeKey.None? || (Get(backends, p) == Some(true) && Healthy(p, w)) {
        ok := SendToBackend(p, id, None, true, luck, w);
      } else {
        ok := Migrate(p, routeKey.value, id, luck, w);
      }
    }

    method Migrate(p: string, routeKey: string, id: Id, luck: Luck, w: World) returns (ok: bool)
      requires Valid()
      modifies this, coordinator, table
      ensures Valid() && (State(), ok) == HandleMigrated(old(State()), p, routeKey, id, luck, w, cfg)
    {
      ghost var before := State();
      if Get(backends, p) != Some(true) {
        coordinator.MarkFailure(p, "process", None, w);
      }
      WfLooksAt(before, State(), Unchecked);
      var lease := SelectBackend(Some(routeKey), true, luck, w);
      if lease.None? {
        return false;
      }
      BindThreadRoute(routeKey, lease.value.profile);
      ok := SendToBackend(lease.value.profile, id, Some(lease.value.id), true, luck, w);
    }

    method BindThreadRoute(routeKey: string, p: string)
      requires Valid()
      modifies table
      ensures Valid() && State() == old(State()).(routes := BindRoute(old(State()).routes, routeKey, p))
    {
      ghost var before := State();
      table.Bind(routeKey, p);
      WfLooksAt(before, State(), Unchecked);
    }

    method StartThread(id: Id, luck: Luck, w: World) returns (ok: bool)
      requires Valid()
      modifies this, coordinator, table
      ensures Valid() && (State(), ok) == HandleStart(old(State()), id, luck, w, cfg)
    {
      var lease := SelectBackend(None, false, luck, w);
      if lease.None? {
        return false;
      }
      ghost var before := State();
      table.RememberRequest(id, lease.value.profile);
      WfLooksAt(before, State(), Unchecked);
      ok := SendToBackend(lease.value.profile, id, Some(lease.value.id), true, luck, w);
    }

    method Unrouted(id: Id, luck: Luck, w: World) returns (ok: bool)
      requires Valid()
      modifies this, coordinator, table
      ensures Valid() && (State(), ok) == HandleUnrouted(old(State()), id, luck, w, cfg)
    {
      var lease := SelectBackend(None, false, luck, w);
      if lease.None? {
        return false;
      }
      ok := SendToBackend(lease.value.profile, id, Some(lease.value.id), true, luck, w);
    }

    method Other(verb: string, m: ClientMessage, luck: Luck, w: World) returns (ok: bool)
      requires Valid()
      modifies this, coordinator, table
      ensures Valid() && (State(), ok) == HandleOther(old(State()), verb, m, luck, w, cfg)
    {
      ghost var before := State();
      var plan := table.Plan(verb, m.thread, m.id);
      WfLooksAt(before, State(), Unchecked);
      match plan
      case PlanLocal => return true;
      case PlanAggregate => ok := Global(verb, m.id, luck, w);
      case PlanSelect => ok := StartThread(m.id, luck, w);
      case PlanBackend(p, routeKey) =>
        if p.Some? {
          ok := Routed(p.value, routeKey, m.id, luck, w);
        } else {
          ok := Unrouted(m.id, luck, w);
        }
      case _ =>
        out := out + [Reply(m.id, ErrorContent(NO_ROUTE))];
        return true;
    }

    method ClientMessage(m: ClientMessage, luck: Luck, w: World) returns (ok: bool)
      requires Valid()
      modifies this, coordinator, table
      ensures Valid() && (State(), ok) == HandleClient(old(State()), m, luck, w, cfg)
    {
      if PoolId(m.id) {
        if m.id.s in table.serverRequests {
          ghost var before := State();
          var request := table.TakeServerRequest(m.id.s);
          WfLooksAt(before, State(), Unchecked);
          ok := SendToBackend(request.value.backend, request.value.original, None, false, luck, w);
          return;
        }
        if m.verb.NoVerb? {
          return true;
        }
      }
      if !m.verb.Verb? {
        return false;
      }
      var verb := m.verb.name;
      if verb == "initialize" {
        ok := Initialize(m.id, luck, w);
      } else if verb == "initialized" {
        ok := true;
      } else if verb in GLOBAL_METHODS && verb != "thread/list" {
        ok := Global(verb, m.id, luck, w);
      } else if verb == "thread/start" {
        ok := StartThread(m.id, luck, w);
      } else {
        ok := Other(verb, m, luck, w);
      }
    }

    // -------------------------------------------------------------- backend messages

    /** `_finish_aggregate` for one of the answers a fanned-out request waits for. */
    method FinishShare(key: Key, agg: nat, r: Response)
      requires agg < |aggs|
      modifies this`aggPending, this`aggs, this`out
      ensures State() == HandleShare(old(State()), key, agg, r)
    {
      aggPending := Pop(aggPending, key);
      AnswerOne(agg, r);
    }

    method DeliverReply(p: string, r: Response, lease: Option<nat>, w: World)
      requires coordinator.policy == cfg.policy
      modifies this`out, coordinator
      ensures State() == Deliver(old(State()), p, r, lease, w, cfg)
    {
      out := out + [Reply(r.id, FromBackend(r))];
      if lease.Some? {
        coordinator.Release(lease.value);
      }
      if r.isError {
        coordinator.MarkFailure(p, FailureKind(r.code), None, w);
      } else {
        coordinator.MarkSuccess(p, w);
      }
    }

    method BackendResponse(p: string, r: Response, w: World) returns (ok: bool)
      requires Valid() && Has(backends, p)
      modifies this, coordinator, table
      ensures Valid() && (State(), ok) == HandleResponse(old(State()), p, r, w, cfg)
    {
      ResponseWf(State(), p, r, w, cfg);
      var key := MessageKey(p, r.id);
      var agg := Get(aggPending, key);
      if agg.Some? {
        assert (key, agg.value) in aggPending;
        FinishShare(key, agg.value, r);
        return true;
      }
      var lease := LeaseOf(Get(pending, key));
      pending := Pop(pending, key);
      ok := table.Response(p, r.id, r.thread);
      if ok {
        DeliverReply(p, r, lease, w);
      }
    }

    method BackendEvent(p: string, m: BackendMessage, w: World)
      requires Valid()
      modifies this, coordinator, table
      ensures Valid() && State() == BackendLine(old(State()), p, m, w, cfg)
    {
      BackendWf(State(), p, m, w, cfg, Unchecked);
      if !Has(backends, p) {
        return;
      }
      match m
      case Answered(r) =>
        var ok := BackendResponse(p, r, w);
        if !ok {
          RetireBackend(p, w);
        }
      case Calls(id, body) =>
        var forwarded := table.Forward(p, id);
        out := out + [ServerCall(forwarded, body)];
      case Notifies(started, body) =>
        if started.Some? {
          table.BindThreadTo(started.value, p);
        }
        out := out + [Notice(body)];
    }

    lemma ResponseWf(s: Mux, p: string, r: Response, w: World, cfg: Config)
      requires Sound(s, Unchecked) && Has(s.backends, p)
      ensures Sound(HandleResponse(s, p, r, w, cfg).0, Unchecked)
    {
      var key := MessageKey(p, r.id);
      if Has(s.aggPending, key) {
        ShareWf(s, key, r, Unchecked);
      } else {
        var (routes, expected) := RecordResponse(s.routes, p, r.id, r.thread);
        var s1 := Untracked(s, p, r.id);
        assert Sound(s1, Unchecked);
        BoundWf(s1, routes, Unchecked);
        var s2 := s1.(routes := routes);
        WfLooksAt(s2, Deliver(s2, p, r, LeaseOf(Get(s.pending, key)), w, cfg), Unchecked);
      }
    }

    // -------------------------------------------------------------- the loop

    /** The body of `run`, event by event. An event of another process happens to the pool file alone. */
    method Handle(e: MuxEvent)
      requires Valid()
      modifies this, coordinator, table
      ensures Valid() && State() == M.Step(old(State()), e, cfg)
    {
      match e
      case Client(m, luck, w) =>
        var ok := ClientMessage(m, luck, w);
        if !ok && m.id != IdNull {
          out := out + [Reply(m.id, ErrorContent(BACKEND_FAILED))];
        }
      case Backend(p, m, w) => BackendEvent(p, m, w);
      case Lost(p, w) => RetireBackend(p, w);
      case Exits(p) => ProcessEnds(p);
      case Foreign(pe) =>
        ghost var before := State();
        coordinator.file := Apply(coordinator.policy, coordinator.file, pe);
        WfLooksAt(before, State(), Unchecked);
    }

    method ProcessEnds(p: string)
      requires Valid()
      modifies this`backends
      ensures Valid() && State() == Died(old(State()), p)
    {
      RegisterWf(State(), p, false, Unchecked);
      if Has(backends, p) {
        backends := Put(backends, p, false);
      }
    }

    method Serve(es: seq<MuxEvent>)
      requires Valid() && State() == Start(coordinator.file)
      modifies this, coordinator, table
      ensures Valid() && State() == States(old(coordinator.file), es, cfg)
    {
      for i := 0 to |es|
        invariant Valid() && State() == States(old(coordinator.file), es[..i], cfg)
      {
        assert es[..i + 1][..i] == es[..i];
        Handle(es[i]);
      }
      assert es[..|es|] == es;
    }
  }
}
