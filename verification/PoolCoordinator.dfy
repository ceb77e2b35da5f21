/** The coordinator object over the shared pool file, operation by operation as pool.py performs them. */
module Coordinator {
  import opened Wrappers
  import opened AccountUsages
  import opened Spec = Pool

  /** The leases of each account that has any. */
  method CountLeases(leases: seq<PoolLease>) returns (counts: map<string, nat>)
    ensures forall p :: LeaseCount(leases, p) == if p in counts then counts[p] else 0
  {
    counts := map[];
    for i := 0 to |leases|
      invariant forall p :: LeaseCount(leases[..i], p) == if p in counts then counts[p] else 0
    {
      assert leases[..i + 1][..i] == leases[..i];
      var p := leases[i].profile;
      counts := counts[p := (if p in counts then counts[p] else 0) + 1];
    }
    assert leases[..|leases|] == leases;
  }

  /** `now` and `files` are read when the lock is held, so one World per call describes all it sees. */
  class PoolCoordinator {
    const policy: PoolPolicy
    /** The content of the state file. */
    var file: PoolState

    constructor (policy: PoolPolicy)
      ensures this.policy == policy && file == EMPTY_POOL
    {
      this.policy := policy;
      file := EMPTY_POOL;
    }

    method PrunedState(w: World) returns (state: PoolState)
      ensures state == Spec.Prune(file, policy, w)
    {
      var live := [];
      for i := 0 to |file.leases|
        invariant live == LiveLeases(file.leases[..i], policy, w)
      {
        assert file.leases[..i + 1][..i] == file.leases[..i];
        if LeaseLives(file.leases[i], policy, w) {
          live := live + [file.leases[i]];
        }
      }
      assert file.leases[..|file.leases|] == file.leases;
      var health := file.health;
      var keys := file.health.Keys;
      while keys != {}
        invariant keys <= file.health.Keys == health.Keys
        invariant forall p :: p in health ==>
          health[p] == if p in keys then file.health[p] else PrunedHealth(file.health[p], w.now)
      {
        var p :| p in keys;
        if CooldownOver(health[p], w.now) {
          health := health[p := health[p].(status := Healthy, cooldownUntil := None, updatedAt := w.now)];
        }
        keys := keys - {p};
      }
      state := file.(leases := live, health := health);
    }

    method CandidateList(start: PoolState, profiles: seq<string>, usages: map<string, AccountUsage>, w: World)
      returns (state: PoolState, found: seq<Candidate>)
      ensures (state, found) == Spec.Candidates(start, profiles, usages, w)
    {
      var counts := CountLeases(start.leases);
      state, found := start, [];
      for i := 0 to |profiles|
        invariant (state, found) == Spec.Candidates(start, profiles[..i], usages, w)
      {
        assert profiles[..i + 1][..i] == profiles[..i];
        var p := profiles[i];
        var capacity := CapacityOf(usages, p);
        state := HealthAfterAuthChange(state, p, w);
        if capacity.None? || !HealthEligible(HealthOf(state, p), w.now) {
          continue;
        }
        var active := if p in counts then counts[p] else 0;
        found := found + [Candidate(
          p, capacity.value.remaining, capacity.value.remaining / (active + 1) as real, active,
            capacity.value.resetsAt)];
      }
      assert profiles[..|profiles|] == profiles;
    }

    /** The head of the sorted list. */
    method First(cands: seq<Candidate>, selectedAt: map<string, real>) returns (b: Candidate)
      requires cands != []
      ensures b == Best(cands, selectedAt)
    {
      b := cands[0];
      for i := 1 to |cands|
        invariant b == Best(cands[..i], selectedAt)
      {
        assert cands[..i + 1][..i] == cands[..i];
        if KeyLess(cands[i], b, selectedAt) {
          b := cands[i];
        }
      }
      assert cands[..|cands|] == cands;
    }

    method Reserve(profiles: seq<string>, usages: map<string, AccountUsage>, req: ReserveRequest, w: World)
      returns (r: ReserveResult)
      modifies this
      ensures (file, r) == Spec.Reserve(old(file), policy, profiles, usages, req, w)
    {
      var state := PrunedState(w);
      var cands;
      state, cands := CandidateList(state, profiles, usages, w);
      var key := req.routeKey.GetOr("");
      var candidate := None;
      if cands != [] {
        var first := First(cands, state.selectedAt);
        candidate := Some(first);
      }
      if key != "" && (req.recoverSticky || !req.allowMigrate) && key in state.routes {
        var sticky := Named(cands, state.routes[key].profile);
        if sticky.Some? {
          candidate := sticky;
        } else if !req.recoverSticky {
          return StickyUnavailable;
        }
      }
      if candidate.None? {
        return NoAccount;
      }
      var profile := candidate.value.profile;
      var lease := PoolLease(state.nextId, profile, req.owner, w.now, w.now, req.routeKey);
      state := state.(
        leases := state.leases + [lease], selectedAt := state.selectedAt[profile := w.now], nextId := state.nextId + 1);
      if key != "" {
        var created := if key in state.routes then state.routes[key].createdAt else w.now;
        state := state.(routes := state.routes[key := PoolRoute(profile, created, w.now)]);
      }
      file := state;
      r := Reserved(lease);
    }

    lemma {:induction false} BeatFirst(leases: seq<PoolLease>, id: nat, now: real, i: nat)
      requires i <= |leases| && forall j :: 0 <= j < i ==> leases[j].id != id
      ensures i == |leases| ==> Beat(leases, id, now) == leases
      ensures i < |leases| && leases[i].id == id ==> Beat(leases, id, now) == leases[i := leases[i].(heartbeat := now)]
    {
      if i > 0 {
        BeatFirst(leases[1..], id, now, i - 1);
        assert leases == [leases[0]] + leases[1..];
      }
    }

    method Heartbeat(id: nat, w: World)
      modifies this
      ensures file == Spec.Heartbeat(old(file), id, w.now)
    {
      for i := 0 to |file.leases|
        invariant file == old(file)
        invariant forall j :: 0 <= j < i ==> file.leases[j].id != id
      {
        if file.leases[i].id == id {
          BeatFirst(file.leases, id, w.now, i);
          file := file.(leases := file.leases[i := file.leases[i].(heartbeat := w.now)]);
          return;
        }
      }
      BeatFirst(file.leases, id, w.now, |file.leases|);
    }

    method Release(id: nat)
      modifies this
      ensures file == Spec.Release(old(file), id)
    {
      var kept := [];
      for i := 0 to |file.leases|
        invariant file == old(file) && kept == WithoutLease(file.leases[..i], id)
      {
        assert file.leases[..i + 1][..i] == file.leases[..i];
        if file.leases[i].id != id {
          kept := kept + [file.leases[i]];
        }
      }
      assert file.leases[..|file.leases|] == file.leases;
      file := file.(leases := kept);
    }

    method ClearRoute(key: string)
      modifies this
      ensures file == Spec.ClearRoute(old(file), key)
    {
      file := file.(routes := file.routes - {key});
    }

    method MarkSuccess(profile: string, w: World)
      modifies this
      ensures file == Spec.MarkSuccess(old(file), profile, w)
    {
      var previous := HealthOf(file, profile);
      var selected := file.selectedAt;
      if previous.status != Healthy && profile !in selected {
        selected := selected[profile := w.now];
      }
      file := file.(
        health := file.health[profile := PoolHealth(Healthy, 0, None, w.now, w.Fingerprint(profile))],
        selectedAt := selected);
    }

    method MarkFailure(profile: string, kind: string, given: Option<string>, w: World)
      modifies this
      ensures file == Spec.MarkFailure(old(file), policy, profile, kind, given, w)
    {
      var count := HealthOf(file, profile).failureCount + 1;
      var fingerprint := if given.Some? then given else w.Fingerprint(profile);
      var health;
      if IsAuthKind(kind) {
        health := PoolHealth(AuthExpired, count, None, w.now, fingerprint);
      } else if kind == "disabled" {
        health := PoolHealth(Disabled, count, None, w.now, fingerprint);
      } else {
        var exponent := if count - 1 < 5 then count - 1 else 5;
        var cooldown := policy.cooldownSeconds * Pow2(exponent);
        if policy.maxCooldownSeconds < cooldown {
          cooldown := policy.maxCooldownSeconds;
        }
        assert cooldown == BackoffDelay(policy, count);
        health := PoolHealth(Cooldown, count, Some(w.now + cooldown), w.now, fingerprint);
      }
      file := file.(health := file.health[profile := health]);
    }
  }
}
