/** One saved profile of store.py and the sessions of wrapper.py that use it. */
module Credentials {
  // A session starts with a link to the profile's file; the program it runs may write through the link, replace it by
  // a copy of its own, or delete it; at its end the copy is reconciled. Installing, reconciling and refreshing happen
  // under the profile's lock.

  import opened Wrappers

  // ---------------------------------------------------------------- data

  /** The content of a credential file. A field is none when it is absent or not text. */
  datatype Auth = Auth(
    access: Option<string>,
    refresh: Option<string>,
    idToken: Option<string>,
    lastRefresh: Option<string>,
    rest: string)

  /** The account an auth file belongs to, or none when it does not say. */
  type Identity = Auth -> Option<string>

  datatype Vault = Vault(file: Option<Auth>, rejected: seq<Auth>)

  function FileIdentity(id: Identity, v: Vault): Option<string> {
    if v.file.Some? then id(v.file.value) else None
  }

  /** The candidate must match every identity that is known: the one expected, and the one in place. */
  predicate Acceptable(id: Identity, v: Vault, candidate: Auth, expected: Option<string>) {
    (expected.Some? ==> id(candidate) == expected)
    && (FileIdentity(id, v).Some? ==> id(candidate) == FileIdentity(id, v))
  }

  /** `sync_profile_auth`: false when it raised, which is after the candidate has been put aside. */
  function Sync(id: Identity, v: Vault, active: Option<Auth>, expected: Option<string>, initial: Option<Auth>)
    : (Vault, bool)
  {
    if active.None? || active == initial || active == v.file then (v, true)
    else if Acceptable(id, v, active.value, expected) then (v.(file := active), true)
    else (v.(rejected := v.rejected + [active.value]), false)
  }

  // ---------------------------------------------------------------- sessions

  datatype Copy = Linked | Detached(auth: Auth) | Deleted

  datatype Session = Session(copy: Copy, initial: Auth, expected: Option<string>)

  /** `refreshing` holds the identity read when the refresh that has the lock started. */
  datatype Profile = Profile(vault: Vault, sessions: map<nat, Session>, refreshing: Option<Option<string>>)

  datatype Event =
    | Starts(s: nat)
    | WritesThrough(s: nat, auth: Auth)
    | Detaches(s: nat, auth: Auth)
    | Deletes(s: nat)
    | Ends(s: nat)
    | RefreshStarts
    | RefreshEnds(candidate: Option<Auth>)

  /** What the session's own path reads as: through the link, the file itself. */
  function Active(v: Vault, s: Session): Option<Auth> {
    match s.copy
    case Linked => v.file
    case Detached(auth) => Some(auth)
    case Deleted => None
  }

  function Reconcile(id: Identity, v: Vault, s: Session): (Vault, bool) {
    Sync(id, v, Active(v, s), s.expected, Some(s.initial))
  }

  /** An event whose session does not exist, or that needs the lock while another holds it, does not happen. */
  predicate Possible(p: Profile, e: Event) {
    match e
    case Starts(s) => s !in p.sessions && p.vault.file.Some? && p.refreshing.None?
    case WritesThrough(s, _) => s in p.sessions && p.sessions[s].copy.Linked? && p.vault.file.Some?
    case Detaches(s, _) => s in p.sessions
    case Deletes(s) => s in p.sessions
    case Ends(s) => s in p.sessions && p.refreshing.None?
    case RefreshStarts => p.refreshing.None? && p.vault.file.Some?
    case RefreshEnds(_) => p.refreshing.Some?
  }

  function Step(id: Identity, p: Profile, e: Event): Profile {
    if !Possible(p, e) then p
    else
      match e
      case Starts(s) =>
        var auth := p.vault.file.value;
        p.(sessions := p.sessions[s := Session(Linked, auth, id(auth))])
      case WritesThrough(s, auth) => p.(vault := p.vault.(file := Some(auth)))
      case Detaches(s, auth) => p.(sessions := p.sessions[s := p.sessions[s].(copy := Detached(auth))])
      case Deletes(s) => p.(sessions := p.sessions[s := p.sessions[s].(copy := Deleted)])
      case Ends(s) => p.(vault := Reconcile(id, p.vault, p.sessions[s]).0, sessions := p.sessions - {s})
      case RefreshStarts => p.(refreshing := Some(FileIdentity(id, p.vault)))
      case RefreshEnds(candidate) =>
        p.(vault := Sync(id, p.vault, candidate, p.refreshing.value, None).0, refreshing := None)
  }

  function Run(id: Identity, v: Vault, es: seq<Event>): Profile {
    if es == [] then Profile(v, map[], None)
    else Step(id, Run(id, v, es[..|es| - 1]), es[|es| - 1])
  }

  // ---------------------------------------------------------------- the identity guard

  predicate Known(id: Identity, p: Profile, account: string) {
    FileIdentity(id, p.vault) == Some(account)
  }

  /** A program that writes another account's credentials through its link to the profile's file. */
  predicate CrossesAccounts(id: Identity, p: Profile, e: Event, account: string) {
    e.WritesThrough? && Possible(p, e) && id(e.auth) != Some(account)
  }

  /** One step: a known identity is lost exactly by a write through a link, which no guard sees. */
  lemma StepKeepsIdentity(id: Identity, p: Profile, e: Event, account: string)
    requires Known(id, p, account)
    ensures Known(id, Step(id, p, e), account) <==> !CrossesAccounts(id, p, e, account)
  {
  }

  predicate WellBehaved(id: Identity, v: Vault, es: seq<Event>, from: nat, account: string) {
    forall i :: from <= i < |es| ==> !CrossesAccounts(id, Run(id, v, es[..i]), es[i], account)
  }

  /** The saved file belongs to the account after the n-th event and ever since. */
  predicate KnownSince(id: Identity, v: Vault, es: seq<Event>, n: nat, account: string)
    requires n <= |es|
  {
    Known(id, Run(id, v, es), account) && (n < |es| ==> KnownSince(id, v, es[..|es| - 1], n, account))
  }

  lemma WellBehavedFront(id: Identity, v: Vault, es: seq<Event>, n: nat, account: string)
    requires n < |es|
    ensures var front, e := es[..|es| - 1], es[|es| - 1];
      WellBehaved(id, v, es, n, account) <==>
        WellBehaved(id, v, front, n, account) && !CrossesAccounts(id, Run(id, v, front), e, account)
  {
    var front := es[..|es| - 1];
    assert forall i :: 0 <= i <= |front| ==> front[..i] == es[..i];
    assert forall i :: 0 <= i < |front| ==> front[i] == es[i];
  }

  /**
   * Once the saved file belongs to a known account, it belongs to that account for the rest of the run, exactly if no
   * program writes another account's credentials through its link.
   */
  lemma {:induction false} IdentityIsKept(id: Identity, v: Vault, es: seq<Event>, n: nat, account: string)
    requires n <= |es| && Known(id, Run(id, v, es[..n]), account)
    ensures KnownSince(id, v, es, n, account) <==> WellBehaved(id, v, es, n, account)
  {
    if n == |es| {
      assert es[..n] == es;
    } else {
      var front, e := es[..|es| - 1], es[|es| - 1];
      assert front[..n] == es[..n];
      IdentityIsKept(id, v, front, n, account);
      WellBehavedFront(id, v, es, n, account);
      if KnownSince(id, v, front, n, account) {
        StepKeepsIdentity(id, Run(id, v, front), e, account);
      }
    }
  }

  // ---------------------------------------------------------------- nothing a session brings back is lost

  /** The credential is of this account, as far as the account is known. */
  predicate Belongs(id: Identity, auth: Auth, account: Option<string>) {
    account.None? || id(auth) == account
  }

  /**
   * The end of a session. A session still linked, one whose file is gone and one with an unchanged copy leave the
   * profile as it is, however it has moved on since. A changed copy is stored afterwards, or put aside; and put aside
   * exactly when it is not of the account that the session expects, or not of that of the file, where these are
   * known.
   */
  lemma EndKeepsCredential(id: Identity, p: Profile, s: nat)
    requires Possible(p, Ends(s))
    ensures var (copy, after) := (p.sessions[s].copy, Step(id, p, Ends(s)).vault);
      if !copy.Detached? || copy.auth == p.sessions[s].initial then after == p.vault
      else if p.vault.file == Some(copy.auth)
        || (Belongs(id, copy.auth, p.sessions[s].expected)
            && (p.vault.file.Some? ==> Belongs(id, copy.auth, id(p.vault.file.value))))
      then after == p.vault.(file := Some(copy.auth))
      else after == p.vault.(rejected := p.vault.rejected + [copy.auth])
  {
  }

  lemma {:induction false} RejectedIsKept(id: Identity, v: Vault, es: seq<Event>, n: nat)
    requires n <= |es|
    ensures Run(id, v, es[..n]).vault.rejected <= Run(id, v, es).vault.rejected
  {
    if n == |es| {
      assert es[..n] == es;
    } else {
      var front := es[..|es| - 1];
      assert front[..n] == es[..n];
      RejectedIsKept(id, v, front, n);
    }
  }

  /** The session's credential at its end, if it brings back one that differs from what it started with. */
  function BroughtBack(p: Profile, e: Event): Option<Auth> {
    if e.Ends? && Possible(p, e) && p.sessions[e.s].copy.Detached?
      && p.sessions[e.s].copy.auth != p.sessions[e.s].initial
    then Some(p.sessions[e.s].copy.auth) else None
  }

  lemma RunNext(id: Identity, v: Vault, es: seq<Event>, n: nat)
    requires n < |es|
    ensures Run(id, v, es[..n + 1]) == Step(id, Run(id, v, es[..n]), es[n])
  {
    assert es[..n + 1][..n] == es[..n];
  }

  /** Over a whole run: every changed credential brought back is in the file right then, or put aside for good. */
  lemma BroughtBackIsKept(id: Identity, v: Vault, es: seq<Event>, n: nat)
    requires n < |es| && BroughtBack(Run(id, v, es[..n]), es[n]).Some?
    ensures var auth := BroughtBack(Run(id, v, es[..n]), es[n]).value;
      Run(id, v, es[..n + 1]).vault.file == Some(auth) || auth in Run(id, v, es).vault.rejected
  {
    RunNext(id, v, es, n);
    var p := Run(id, v, es[..n]);
    EndKeepsCredential(id, p, es[n].s);
    RejectedIsKept(id, v, es, n + 1);
    var auth, after := BroughtBack(p, es[n]).value, Step(id, p, es[n]).vault;
    if after.file != Some(auth) {
      assert after.rejected == p.vault.rejected + [auth];
      assert auth in after.rejected;
    }
  }

  predicate AllExpect(p: Profile, account: string) {
    forall s :: s in p.sessions ==> p.sessions[s].expected == Some(account)
  }

  lemma StepKeepsExpectation(id: Identity, p: Profile, e: Event, account: string)
    requires Known(id, p, account) && AllExpect(p, account)
    ensures AllExpect(Step(id, p, e), account)
  {
  }

  /** In a run on a file of a known account, every running session expects that account. */
  lemma {:induction false} SessionsExpectAccount(id: Identity, v: Vault, es: seq<Event>, account: string)
    requires Known(id, Profile(v, map[], None), account) && WellBehaved(id, v, es, 0, account)
    ensures AllExpect(Run(id, v, es), account)
  {
    if es != [] {
      var front := es[..|es| - 1];
      assert forall i :: 0 <= i <= |front| ==> front[..i] == es[..i];
      SessionsExpectAccount(id, v, front, account);
      assert front[..0] == [];
      IdentityIsKept(id, v, front, 0, account);
      StepKeepsExpectation(id, Run(id, v, front), es[|es| - 1], account);
    }
  }

  /**
   * So a changed credential is stored exactly when it belongs to the file's account: another account's is put aside,
   * and one of the same account never is.
   */
  lemma OnlyOwnCredentialsAreInstalled(id: Identity, v: Vault, es: seq<Event>, n: nat, account: string)
    requires Known(id, Profile(v, map[], None), account) && WellBehaved(id, v, es, 0, account)
    requires n < |es| && BroughtBack(Run(id, v, es[..n]), es[n]).Some?
    ensures var auth, after := BroughtBack(Run(id, v, es[..n]), es[n]).value, Run(id, v, es[..n + 1]).vault;
      && (after.file == Some(auth) <==> id(auth) == Some(account))
      && (after.rejected == Run(id, v, es[..n]).vault.rejected <==> id(auth) == Some(account))
  {
    RunNext(id, v, es, n);
    assert es[..n][..0] == [];
    assert forall i :: 0 <= i <= n ==> es[..n][..i] == es[..i];
    SessionsExpectAccount(id, v, es[..n], account);
    IdentityIsKept(id, v, es[..n], 0, account);
    EndKeepsCredential(id, Run(id, v, es[..n]), es[n].s);
  }

  // ---------------------------------------------------------------- nothing foreign is stored

  /** The account of the file when the session last started. */
  function StartedOn(id: Identity, v: Vault, es: seq<Event>, s: nat): Option<string> {
    if es == [] then None
    else
      var p, e := Run(id, v, es[..|es| - 1]), es[|es| - 1];
      if e == Starts(s) && Possible(p, e) && p.vault.file.Some? then id(p.vault.file.value)
      else StartedOn(id, v, es[..|es| - 1], s)
  }

  /** The account of the file when the last refresh started. */
  function RefreshedOn(id: Identity, v: Vault, es: seq<Event>): Option<string> {
    if es == [] then None
    else
      var p, e := Run(id, v, es[..|es| - 1]), es[|es| - 1];
      if e.RefreshStarts? && Possible(p, e) && p.vault.file.Some? then id(p.vault.file.value)
      else RefreshedOn(id, v, es[..|es| - 1])
  }

  lemma {:induction false} AccountsAreRemembered(id: Identity, v: Vault, es: seq<Event>)
    ensures var p := Run(id, v, es);
      && (forall s :: s in p.sessions ==> p.sessions[s].expected == StartedOn(id, v, es, s))
      && (p.refreshing.Some? ==> p.refreshing.value == RefreshedOn(id, v, es))
  {
    if es != [] {
      AccountsAreRemembered(id, v, es[..|es| - 1]);
    }
  }

  /**
   * Over whole runs: the end of a session stores nothing of another account than the file had when the session
   * started, nor the end of a refresh of another than it had when the refresh did, nor either of another than it has,
   * where these are known.
   */
  lemma NothingForeignIsStored(id: Identity, v: Vault, es: seq<Event>, e: Event)
    requires e.Ends? || e.RefreshEnds?
    ensures var before, after := Run(id, v, es).vault, Run(id, v, es + [e]).vault;
      after.file != before.file ==>
        && after.file.Some? && after.rejected == before.rejected
        && Belongs(
             id, after.file.value, if e.Ends? then StartedOn(id, v, es, e.s) else RefreshedOn(id, v, es))
        && (before.file.Some? ==> Belongs(id, after.file.value, id(before.file.value)))
  {
    AccountsAreRemembered(id, v, es);
    assert (es + [e])[..|es|] == es;
  }

  // ---------------------------------------------------------------- the profile in place

  class ProfileStore {
    const id: Identity
    var file: Option<Auth>
    var rejected: seq<Auth>

    constructor (id: Identity)
      ensures this.id == id && State() == Vault(None, [])
    {
      this.id := id;
      file, rejected := None, [];
    }

    function State(): Vault
      reads this
    {
      Vault(file, rejected)
    }

    method SyncProfileAuth(active: Option<Auth>, expected: Option<string>, initial: Option<Auth>) returns (ok: bool)
      modifies this
      ensures (State(), ok) == Sync(id, old(State()), active, expected, initial)
    {
      if active.None? {
        return true;
      }
      if initial.Some? && active == initial {
        return true;
      }
      if file == active {
        return true;
      }
      var candidate := id(active.value);
      var current: Option<string> := None;
      if file.Some? {
        current := id(file.value);
      }
      var required := (if expected.Some? then {expected.value} else {})
        + (if current.Some? then {current.value} else {});
      if required != {} && (candidate.None? || exists i :: i in required && candidate.value != i) {
        rejected := rejected + [active.value];
        return false;
      }
      file := active;
      return true;
    }

    /** The locked step that starts a session; none when the profile is not there. */
    method InstallLink() returns (s: Option<Session>)
      ensures s == if file.None? then None else Some(Session(Linked, file.value, id(file.value)))
    {
      if file.None? {
        return None;
      }
      return Some(Session(Linked, file.value, id(file.value)));
    }

    /** The locked step that ends one. */
    method EndSession(s: Session) returns (ok: bool)
      modifies this
      ensures (State(), ok) == Reconcile(id, old(State()), s)
    {
      match s.copy
      case Linked => ok := SyncProfileAuth(file, s.expected, Some(s.initial));
      case Detached(auth) => ok := SyncProfileAuth(Some(auth), s.expected, Some(s.initial));
      case Deleted => ok := SyncProfileAuth(None, s.expected, Some(s.initial));
    }
  }
}
