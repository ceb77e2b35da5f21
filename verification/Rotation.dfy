/** The desktop rotation of desktop.py: a poller that switches an idle application to another account. */
module Rotation {
  // It waits for a grace period and switches at most once per cooldown; a manual switch does neither. Cycles and
  // switches run one after the other.

  import opened Wrappers
  import opened AccountUsages
  import opened Pool
  import opened ProcessTree

  // ---------------------------------------------------------------- data

  datatype AutoConfig = AutoConfig(idleSeconds: real, cooldownSeconds: real, switchBelow: real, minImprovement: real)

  datatype AutoState = AutoState(
    idleSince: Option<real>, lastSwitchAt: Option<real>, lastProfile: Option<string>, selectedAt: map<string, real>)

  /** The saved state, and the account in use. */
  datatype Desk = Desk(auto: AutoState, current: Option<string>)

  /** One look at the application's turns. */
  datatype Turns = NoneActive | SomeActive | Unreadable

  /** What one cycle or manual switch finds outside, in the order it looks. */
  datatype Seen = Seen(
    mode: Mode,
    hasBinary: bool,
    first: Turns,       // by the cycle itself
    second: Turns,      // when the switch begins
    profiles: seq<string>,
    usages: map<string, AccountUsage>,
    third: Turns,       // after an account has been chosen
    restarts: bool)

  datatype Result = Switched(profile: string) | Stayed | Raised

  // ---------------------------------------------------------------- choosing

  /** The capacity of an account, as a candidate without leases. */
  function AsCandidate(p: string, c: Capacity): Candidate {
    Candidate(p, c.remaining, c.remaining, 0, c.resetsAt)
  }

  function Others(
    profiles: seq<string>, usages: map<string, AccountUsage>, current: Option<string>): (r: seq<Candidate>)
    ensures forall c :: c in r ==>
      c.profile in profiles && Some(c.profile) != current
      && CapacityOf(usages, c.profile).Some? && c == AsCandidate(c.profile, CapacityOf(usages, c.profile).value)
    ensures forall p :: p in profiles && Some(p) != current && CapacityOf(usages, p).Some? ==>
      AsCandidate(p, CapacityOf(usages, p).value) in r
  {
    if profiles == [] then []
    else
      var front, p := Others(profiles[..|profiles| - 1], usages, current), profiles[|profiles| - 1];
      if Some(p) == current || CapacityOf(usages, p).None? then front
      else front + [AsCandidate(p, CapacityOf(usages, p).value)]
  }

  /** What is left of the account in use; none when it is not listed or not usable. */
  function CurrentRemaining(
    profiles: seq<string>, usages: map<string, AccountUsage>, current: Option<string>): Option<real> {
    if current.Some? && current.value != "" && current.value in profiles && CapacityOf(usages, current.value).Some?
    then Some(CapacityOf(usages, current.value).value.remaining) else None
  }

  /** The switch is worth it: the account is low, and the other one is better by enough. */
  predicate WorthIt(remaining: Option<real>, other: real, cfg: AutoConfig) {
    remaining.None? || (remaining.value <= cfg.switchBelow && other - remaining.value >= cfg.minImprovement)
  }

  /** `choose_desktop_profile` */
  function ChooseAccount(
    profiles: seq<string>, usages: map<string, AccountUsage>, current: Option<string>, cfg: AutoConfig,
    selectedAt: map<string, real>, force: bool): Option<string>
  {
    var others := Others(profiles, usages, current);
    if others == [] then None
    else
      var best := Best(others, selectedAt);
      if force || WorthIt(CurrentRemaining(profiles, usages, current), best.remaining, cfg)
      then Some(best.profile) else None
  }

  // ---------------------------------------------------------------- switching

  function SwitchTo(d: Desk, p: string, now: real): Desk {
    Desk(AutoState(Some(now), Some(now), Some(p), d.auto.selectedAt[p := now]), Some(p))
  }

  /** The switch itself; when the application does not restart, the account it had is put back. */
  function Activate(d: Desk, p: string, s: Seen, now: real): (Desk, Result) {
    if !s.mode.Managed? || s.restarts then (SwitchTo(d, p, now), Switched(p))
    else (if d.current.Some? then d else d.(current := Some(p)), Raised)
  }

  predicate Quiet(s: Seen, turns: Turns) {
    s.mode.Managed? ==> turns.NoneActive?
  }

  /** `rotate_desktop_account` */
  function Rotate(d: Desk, cfg: AutoConfig, s: Seen, now: real, force: bool): (Desk, Result) {
    if s.mode.Unmanaged? || s.mode.Transition? || !s.hasBinary || !Quiet(s, s.second) then (d, Raised)
    else
      var choice := ChooseAccount(s.profiles, s.usages, d.current, cfg, d.auto.selectedAt, force);
      if choice.None? then (d, Stayed)
      else if !Quiet(s, s.third) then (d, Raised)
      else Activate(d, choice.value, s, now)
  }

  predicate InGrace(auto: AutoState, cfg: AutoConfig, now: real) {
    auto.idleSince.Some? && now - auto.idleSince.value < cfg.idleSeconds
  }

  predicate InCooldown(auto: AutoState, cfg: AutoConfig, now: real) {
    auto.lastSwitchAt.Some? && now - auto.lastSwitchAt.value < cfg.cooldownSeconds
  }

  function Idle(d: Desk, since: Option<real>): Desk {
    d.(auto := d.auto.(idleSince := since))
  }

  /** `desktop_auto_cycle` */
  function Cycle(d: Desk, cfg: AutoConfig, s: Seen, now: real): (Desk, Result) {
    if !s.mode.Managed? then (Idle(d, None), Stayed)
    else if !s.hasBinary || s.first.Unreadable? then (d, Raised)
    else if s.first.SomeActive? then (Idle(d, None), Stayed)
    else if d.auto.idleSince.None? then (Idle(d, Some(now)), Stayed)
    else if InGrace(d.auto, cfg, now) || InCooldown(d.auto, cfg, now) then (d, Stayed)
    else Rotate(d, cfg, s, now, false)
  }

  // ---------------------------------------------------------------- runs

  datatype Event =
    | Polls(now: real, cfg: AutoConfig, seen: Seen)
    | Manual(now: real, cfg: AutoConfig, seen: Seen, force: bool)

  function Happens(d: Desk, e: Event): (Desk, Result) {
    match e
    case Polls(now, cfg, seen) => Cycle(d, cfg, seen, now)
    case Manual(now, cfg, seen, force) => Rotate(d, cfg, seen, now, force)
  }

  function Run(d: Desk, es: seq<Event>): Desk {
    if es == [] then d else Happens(Run(d, es[..|es| - 1]), es[|es| - 1]).0
  }

  predicate Monotone(es: seq<Event>) {
    forall i, j :: 0 <= i < j < |es| ==> es[i].now <= es[j].now
  }

  /** The result of the n-th event. */
  function ResultAt(d: Desk, es: seq<Event>, n: nat): Result
    requires n < |es|
  {
    Happens(Run(d, es[..n]), es[n]).1
  }

  // ---------------------------------------------------------------- timing

  /** The cycle sees by itself that the application is in use, or is not the one it manages. */
  predicate SeesUse(e: Event) {
    e.Polls? && (!e.seen.mode.Managed? || (e.seen.hasBinary && e.seen.first.SomeActive?))
  }

  /** Since the n-th event the state remembers a switch, or a start of idleness, no earlier than it. */
  predicate RemembersSwitch(d: Desk, since: real) {
    d.auto.lastSwitchAt.Some? && d.auto.lastSwitchAt.value >= since
  }

  predicate RemembersUse(d: Desk, since: real) {
    d.auto.idleSince.Some? ==> d.auto.idleSince.value >= since
  }

  lemma StepRemembers(d: Desk, e: Event, since: real)
    requires since <= e.now
    ensures RemembersSwitch(d, since) || Happens(d, e).1.Switched? ==> RemembersSwitch(Happens(d, e).0, since)
    ensures RemembersUse(d, since) || SeesUse(e) ==> RemembersUse(Happens(d, e).0, since)
  {
    match e
    case Polls(now, cfg, seen) => CycleSets(d, cfg, seen, now);
    case Manual(now, cfg, seen, force) => RotateSetsBoth(d, cfg, seen, now, force);
  }

  /**
   * A cycle that does not switch leaves the time of the last switch; it forgets idleness, or starts it, or neither.
   */
  lemma CycleSets(d: Desk, cfg: AutoConfig, s: Seen, now: real)
    ensures var (t, r) := Cycle(d, cfg, s, now);
      if r.Switched? then t.auto.lastSwitchAt == Some(now) && t.auto.idleSince == Some(now)
      else
        && t.auto.lastSwitchAt == d.auto.lastSwitchAt
        && (t.auto.idleSince == d.auto.idleSince || t.auto.idleSince in {None, Some(now)})
        && (!s.mode.Managed? || (s.hasBinary && s.first.SomeActive?) ==> t.auto.idleSince == None)
  {
    RotateSetsBoth(d, cfg, s, now, false);
  }

  /** A switch sets both times to its own; anything else leaves them. */
  lemma RotateSetsBoth(d: Desk, cfg: AutoConfig, s: Seen, now: real, force: bool)
    ensures var (t, r) := Rotate(d, cfg, s, now, force);
      if r.Switched? then t.auto.lastSwitchAt == Some(now) && t.auto.idleSince == Some(now) else t.auto == d.auto
  {
  }

  lemma {:induction false} RunRemembers(d: Desk, es: seq<Event>, m: nat)
    requires Monotone(es) && m < |es|
    ensures ResultAt(d, es, m).Switched? ==> RemembersSwitch(Run(d, es), es[m].now)
    ensures SeesUse(es[m]) ==> RemembersUse(Run(d, es), es[m].now)
  {
    var k := |es| - 1;
    var front := es[..k];
    if m < k {
      assert forall i :: 0 <= i < k ==> front[i] == es[i];
      assert front[..m] == es[..m];
      RunRemembers(d, front, m);
      assert ResultAt(d, front, m) == ResultAt(d, es, m);
    }
    assert Run(d, es) == Happens(Run(d, front), es[k]).0;
    StepRemembers(Run(d, front), es[k], es[m].now);
  }

  /**
   * Timing. An automatic switch comes at least the cooldown after every earlier switch, automatic or manual; at least
   * the grace period after every earlier cycle that saw the application in use; and sees no use itself.
   */
  lemma SwitchesAreTimed(d: Desk, es: seq<Event>, n: nat, m: nat)
    requires Monotone(es) && m < n < |es| && es[n].Polls? && ResultAt(d, es, n).Switched?
    ensures ResultAt(d, es, m).Switched? ==> es[n].now - es[m].now >= es[n].cfg.cooldownSeconds
    ensures SeesUse(es[m]) ==> es[n].now - es[m].now >= es[n].cfg.idleSeconds
    ensures es[n].seen.mode.Managed? && es[n].seen.first.NoneActive? && es[n].seen.second.NoneActive?
      && es[n].seen.third.NoneActive?
  {
    var front := es[..n];
    assert forall i :: 0 <= i < n ==> front[i] == es[i];
    assert front[..m] == es[..m];
    RunRemembers(d, front, m);
  }

  // ---------------------------------------------------------------- what the grace period does not cover

  /** A cycle that goes on to switch and then finds the application in use. */
  predicate SeesUseLate(d: Desk, e: Event) {
    e.Polls? && Cycle(d, e.cfg, e.seen, e.now).1.Raised? && e.seen.hasBinary && !e.seen.first.Unreadable?
    && (e.seen.second.SomeActive? || (e.seen.second.NoneActive? && e.seen.third.SomeActive?))
  }

  /**
   * Which use counts, exactly: of the cycles that find the application in use after it has been idle, those that see
   * it by themselves start the grace period anew, and those that see it only when they are about to switch do not.
   */
  lemma LateUseIsForgotten(d: Desk, e: Event)
    requires SeesUse(e) || SeesUseLate(d, e)
    requires d.auto.idleSince.Some? && d.auto.idleSince.value < e.now
    ensures RemembersUse(Happens(d, e).0, e.now) <==> SeesUse(e)
  {
    RotateSetsBoth(d, e.cfg, e.seen, e.now, false);
  }

  /**
   * A late sighting leaves no trace: the next cycle that finds the application quiet switches if there is a choice.
   */
  lemma NextQuietCycleSwitches(d: Desk, e: Event, later: real)
    requires SeesUseLate(d, e) && later >= e.now
    ensures var quiet := e.seen.(second := NoneActive, third := NoneActive, restarts := true);
      && Run(d, [e]) == d
      && (Cycle(d, e.cfg, quiet, later).1.Switched?
          <==> ChooseAccount(e.seen.profiles, e.seen.usages, d.current, e.cfg, d.auto.selectedAt, false).Some?)
  {
    assert [e][..0] == [];
  }

  /** So a switch may follow a turn by one second, with a grace period of one minute. */
  lemma GracePeriodIsNotKept(usage: AccountUsage)
    requires CapacityOf(map["b" := usage], "b").Some?
    ensures var cfg := AutoConfig(60.0, 1800.0, 10.0, 5.0);
      var busy := Seen(Managed, true, NoneActive, SomeActive, ["b"], map["b" := usage], NoneActive, true);
      var es := [
        Polls(1000.0, cfg, busy), Polls(1100.0, cfg, busy), Polls(1101.0, cfg, busy.(second := NoneActive))];
      var d := Desk(AutoState(None, None, None, map[]), None);
      busy.second.SomeActive? && ResultAt(d, es, 2) == Switched("b")
  {
    var cfg := AutoConfig(60.0, 1800.0, 10.0, 5.0);
    var busy := Seen(Managed, true, NoneActive, SomeActive, ["b"], map["b" := usage], NoneActive, true);
    var es := [Polls(1000.0, cfg, busy), Polls(1100.0, cfg, busy), Polls(1101.0, cfg, busy.(second := NoneActive))];
    var d := Desk(AutoState(None, None, None, map[]), None);
    OnlyOtherIsChosen(usage, cfg);
    assert es[..2][..1] == es[..1] && es[..1][..0] == [];
    var d1 := Idle(d, Some(1000.0));
    assert Run(d, es[..1]) == d1;
    assert Run(d, es[..2]) == d1;
  }

  lemma OnlyOtherIsChosen(usage: AccountUsage, cfg: AutoConfig)
    requires CapacityOf(map["b" := usage], "b").Some?
    ensures ChooseAccount(["b"], map["b" := usage], None, cfg, map[], false) == Some("b")
  {
    assert ["b"][..0] == [];
    var others := Others(["b"], map["b" := usage], None);
    assert "b" in ["b"];
    assert others != [];
    assert Best(others, map[]).profile == "b";
  }

  /** A manual switch looks at no clock: not at the cooldown, and not at the grace period. */
  lemma ManualSwitchIgnoresClock(d: Desk, e: Event, idle: Option<real>, last: Option<real>)
    requires e.Manual?
    ensures var other := d.(auto := d.auto.(idleSince := idle, lastSwitchAt := last));
      Happens(other, e).1 == Happens(d, e).1 && Happens(other, e).0.current == Happens(d, e).0.current
  {
  }

  // ---------------------------------------------------------------- stability

  predicate Usable(profiles: seq<string>, usages: map<string, AccountUsage>, p: string) {
    p in profiles && CapacityOf(usages, p).Some?
  }

  function Left(usages: map<string, AccountUsage>, p: string): real
    requires CapacityOf(usages, p).Some?
  {
    CapacityOf(usages, p).value.remaining
  }

  /** The account in use is usable, and none has more left. */
  predicate OnBest(profiles: seq<string>, usages: map<string, AccountUsage>, d: Desk) {
    && d.current.Some? && d.current.value != "" && Usable(profiles, usages, d.current.value)
    && forall p :: p in profiles && Usable(profiles, usages, p) ==> Left(usages, p) <= Left(usages, d.current.value)
  }

  /**
   * Which account is chosen, and when. There must be another usable account; and unless the switch is forced, or the
   * account in use is not usable itself, this one must be low and another one better by enough. It is one with the
   * most left that is chosen.
   */
  lemma ChoiceIs(
    profiles: seq<string>, usages: map<string, AccountUsage>, current: Option<string>, cfg: AutoConfig,
    selectedAt: map<string, real>, force: bool)
    ensures var choice := ChooseAccount(profiles, usages, current, cfg, selectedAt, force);
      && (choice.Some? <==>
            if force || current.None? || current.value == "" || !Usable(profiles, usages, current.value) then
              exists p :: p in profiles && Usable(profiles, usages, p) && Some(p) != current
            else
              && Left(usages, current.value) <= cfg.switchBelow
              && exists p :: p in profiles && Usable(profiles, usages, p) && Some(p) != current
                             && Left(usages, p) - Left(usages, current.value) >= cfg.minImprovement)
      && (choice.Some? ==>
            && Usable(profiles, usages, choice.value) && choice != current
            && forall q :: q in profiles && Usable(profiles, usages, q) && Some(q) != current ==>
              Left(usages, q) <= Left(usages, choice.value))
  {
    var others := Others(profiles, usages, current);
    if others != [] {
      var best := Best(others, selectedAt);
      assert Usable(profiles, usages, best.profile) && Some(best.profile) != current;
      forall q | q in profiles && Usable(profiles, usages, q) && Some(q) != current
        ensures Left(usages, q) <= Left(usages, best.profile)
      {
        assert AsCandidate(q, CapacityOf(usages, q).value) in others;
      }
    }
  }

  // ---------------------------------------------------------------- what a switch and a cycle do

  /** The application allows a switch: it is stopped, or managed and idle at both looks, and then it starts again. */
  predicate Allows(s: Seen) {
    && s.hasBinary && (s.mode == Stopped || s.mode == Managed)
    && (s.mode == Managed ==> s.second == NoneActive && s.third == NoneActive && s.restarts)
  }

  /** It is known in time that there is nothing to be done. */
  predicate Settled(s: Seen) {
    s.hasBinary && (s.mode == Stopped || (s.mode == Managed && s.second == NoneActive))
  }

  /**
   * A rotation switches if and only if there is a choice and the application allows it, and records account and time.
   * Anything else leaves all as it is; but after a restart that fails, an account is in use where none was before.
   */
  lemma RotationIs(d: Desk, cfg: AutoConfig, s: Seen, now: real, force: bool)
    ensures var (t, r) := Rotate(d, cfg, s, now, force);
      var choice := ChooseAccount(s.profiles, s.usages, d.current, cfg, d.auto.selectedAt, force);
      && (r.Switched? <==> choice.Some? && Allows(s))
      && (r.Stayed? <==> choice.None? && Settled(s))
      && (if r.Switched? then
            && choice == Some(r.profile) && t.current == choice && t.auto.lastProfile == choice
            && t.auto.lastSwitchAt == Some(now) && t.auto.idleSince == Some(now)
            && t.auto.selectedAt == d.auto.selectedAt[r.profile := now]
          else
            var started := choice.Some? && Settled(s) && s.mode == Managed && s.third == NoneActive;
            t == if started && d.current.None? then d.(current := choice) else d)
  {
  }

  /** Nothing holds the poller back: the application is idle, has been for long enough, and so has the last switch. */
  predicate Ripe(d: Desk, cfg: AutoConfig, s: Seen, now: real) {
    && s.mode == Managed && s.hasBinary && s.first == NoneActive
    && d.auto.idleSince.Some? && now >= d.auto.idleSince.value + cfg.idleSeconds
    && (d.auto.lastSwitchAt.Some? ==> now >= d.auto.lastSwitchAt.value + cfg.cooldownSeconds)
  }

  /**
   * A cycle of the poller rotates if and only if nothing holds it back. Otherwise it notes since when the application
   * is idle, and forgets it when it is in use or not managed; what cannot be looked at changes nothing.
   */
  lemma CycleIs(d: Desk, cfg: AutoConfig, s: Seen, now: real)
    ensures var (t, r) := Cycle(d, cfg, s, now);
      if Ripe(d, cfg, s, now) then (t, r) == Rotate(d, cfg, s, now, false)
      else
        var unseen := s.mode == Managed && (!s.hasBinary || s.first == Unreadable);
        && (if unseen then r == Raised else r == Stayed)
        && t == d.(auto := d.auto.(idleSince :=
            if unseen then d.auto.idleSince
            else if s.mode != Managed || s.first == SomeActive then None
            else if d.auto.idleSince.None? then Some(now) else d.auto.idleSince))
  {
  }

  /** A switch that must improve lands on the best account. */
  lemma SwitchLandsOnBest(d: Desk, cfg: AutoConfig, s: Seen, now: real)
    requires cfg.minImprovement >= 0.0 && "" !in s.profiles && Cycle(d, cfg, s, now).1.Switched?
    ensures OnBest(s.profiles, s.usages, Cycle(d, cfg, s, now).0)
  {
    ChoiceIs(s.profiles, s.usages, d.current, cfg, d.auto.selectedAt, false);
  }

  /** On the best account, another is chosen exactly when this one is low and the other is better by enough. */
  lemma LeavesBestOnlyFor(
    profiles: seq<string>, usages: map<string, AccountUsage>, d: Desk, cfg: AutoConfig, selectedAt: map<string, real>)
    requires OnBest(profiles, usages, d)
    ensures var left := Left(usages, d.current.value);
      ChooseAccount(profiles, usages, d.current, cfg, selectedAt, false).Some? <==>
        left <= cfg.switchBelow
        && exists p :: p in profiles && Usable(profiles, usages, p) && Some(p) != d.current
                       && Left(usages, p) - left >= cfg.minImprovement
  {
    ChoiceIs(profiles, usages, d.current, cfg, selectedAt, false);
  }

  /** Only the poller acts, and it always finds the same accounts and usages, and asks for an improvement. */
  predicate SteadyRun(es: seq<Event>, profiles: seq<string>, usages: map<string, AccountUsage>) {
    forall i :: 0 <= i < |es| ==>
      es[i].Polls? && es[i].seen.profiles == profiles && es[i].seen.usages == usages && es[i].cfg.minImprovement > 0.0
  }

  lemma StaysOnBest(d: Desk, e: Event, profiles: seq<string>, usages: map<string, AccountUsage>)
    requires OnBest(profiles, usages, d) && SteadyRun([e], profiles, usages)
    ensures OnBest(profiles, usages, Happens(d, e).0) && !Happens(d, e).1.Switched?
  {
    assert [e][0] == e;
    LeavesBestOnlyFor(profiles, usages, d, e.cfg, d.auto.selectedAt);
  }

  lemma {:induction false} OnBestFrom(
    d: Desk, es: seq<Event>, m: nat, profiles: seq<string>, usages: map<string, AccountUsage>)
    requires "" !in profiles && SteadyRun(es, profiles, usages) && m < |es| && ResultAt(d, es, m).Switched?
    ensures OnBest(profiles, usages, Run(d, es))
  {
    var k := |es| - 1;
    var front := es[..k];
    if m == k {
      SwitchLandsOnBest(Run(d, front), es[k].cfg, es[k].seen, es[k].now);
    } else {
      assert front[..m] == es[..m];
      OnBestFrom(d, front, m, profiles, usages);
      StaysOnBest(Run(d, front), es[k], profiles, usages);
    }
  }

  /** Stability: with the same accounts and usages, and an improvement asked for, a run switches at most once. */
  lemma SwitchesAtMostOnce(
    d: Desk, es: seq<Event>, m: nat, n: nat, profiles: seq<string>, usages: map<string, AccountUsage>)
    requires "" !in profiles && SteadyRun(es, profiles, usages)
    requires m < n < |es| && ResultAt(d, es, m).Switched?
    ensures !ResultAt(d, es, n).Switched?
  {
    var front := es[..n];
    assert front[..m] == es[..m];
    OnBestFrom(d, front, m, profiles, usages);
    assert SteadyRun([es[n]], profiles, usages);
    StaysOnBest(Run(d, front), es[n], profiles, usages);
  }

  /** With no improvement asked for, two accounts with equally little left take turns for ever. */
  lemma EqualAccountsTakeTurns(
    usages: map<string, AccountUsage>, d: Desk, cfg: AutoConfig, a: string, b: string, selectedAt: map<string, real>)
    requires a != b && a != "" && b != "" && d.current == Some(a)
    requires CapacityOf(usages, a).Some? && CapacityOf(usages, b).Some?
      && Left(usages, a) == Left(usages, b) <= cfg.switchBelow
    ensures ChooseAccount([a, b], usages, Some(a), cfg, selectedAt, false) == Some(b) <==> cfg.minImprovement <= 0.0
  {
    LeavesBestOnlyFor([a, b], usages, d, cfg, selectedAt);
    assert b in [a, b] && Usable([a, b], usages, b);
    if ChooseAccount([a, b], usages, Some(a), cfg, selectedAt, false).Some? {
      ChoiceIs([a, b], usages, Some(a), cfg, selectedAt, false);
    }
  }

  // ---------------------------------------------------------------- in place

  class DesktopRotator {
    var idleSince: Option<real>
    var lastSwitchAt: Option<real>
    var lastProfile: Option<string>
    var selectedAt: map<string, real>
    /** The account the store has activated. */
    var current: Option<string>

    constructor ()
      ensures State() == Desk(AutoState(None, None, None, map[]), None)
    {
      idleSince, lastSwitchAt, lastProfile, selectedAt, current := None, None, None, map[], None;
    }

    function State(): Desk
      reads this
    {
      Desk(AutoState(idleSince, lastSwitchAt, lastProfile, selectedAt), current)
    }

    method Candidates(profiles: seq<string>, usages: map<string, AccountUsage>) returns (others: seq<Candidate>)
      ensures others == Others(profiles, usages, current)
    {
      others := [];
      for i := 0 to |profiles|
        invariant others == Others(profiles[..i], usages, current)
      {
        assert profiles[..i + 1][..i] == profiles[..i];
        var p := profiles[i];
        var capacity := CapacityOf(usages, p);
        if capacity.Some? && Some(p) != current {
          others := others + [AsCandidate(p, capacity.value)];
        }
      }
      assert profiles[..|profiles|] == profiles;
    }

    method ChooseProfile(profiles: seq<string>, usages: map<string, AccountUsage>, cfg: AutoConfig, force: bool)
      returns (choice: Option<string>)
      ensures choice == ChooseAccount(profiles, usages, current, cfg, selectedAt, force)
    {
      var others := Candidates(profiles, usages);
      if others == [] {
        return None;
      }
      var selected := Best(others, selectedAt);
      var remaining := CurrentRemaining(profiles, usages, current);
      if !force && remaining.Some? {
        if remaining.value > cfg.switchBelow {
          return None;
        }
        if selected.remaining - remaining.value < cfg.minImprovement {
          return None;
        }
      }
      return Some(selected.profile);
    }

    method RotateAccount(cfg: AutoConfig, s: Seen, now: real, force: bool) returns (r: Result)
      modifies this
      ensures (State(), r) == Rotate(old(State()), cfg, s, now, force)
    {
      if s.mode.Unmanaged? || s.mode.Transition? || !s.hasBinary {
        return Raised;
      }
      if s.mode.Managed? && !s.second.NoneActive? {
        return Raised;
      }
      var choice := ChooseProfile(s.profiles, s.usages, cfg, force);
      if choice.None? {
        return Stayed;
      }
      if s.mode.Managed? && !s.third.NoneActive? {
        return Raised;
      }
      var previous := current;
      current := choice;
      if s.mode.Managed? && !s.restarts {
        if previous.Some? {
          current := previous;
        }
        return Raised;
      }
      lastSwitchAt := Some(now);
      lastProfile := choice;
      selectedAt := selectedAt[choice.value := now];
      idleSince := Some(now);
      return Switched(choice.value);
    }

    method AutoCycle(cfg: AutoConfig, s: Seen, now: real) returns (r: Result)
      modifies this
      ensures (State(), r) == Cycle(old(State()), cfg, s, now)
    {
      if !s.mode.Managed? {
        idleSince := None;
        return Stayed;
      }
      if !s.hasBinary || s.first.Unreadable? {
        return Raised;
      }
      if s.first.SomeActive? {
        idleSince := None;
        return Stayed;
      }
      if idleSince.None? {
        idleSince := Some(now);
        return Stayed;
      }
      if now - idleSince.value < cfg.idleSeconds {
        return Stayed;
      }
      if lastSwitchAt.Some? && now - lastSwitchAt.value < cfg.cooldownSeconds {
        return Stayed;
      }
      r := RotateAccount(cfg, s, now, false);
    }
  }
}
