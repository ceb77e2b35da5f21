/** The active credential file of store.py: normally a link to a saved profile, until a program replaces it. */
module ActiveProfile {
  // Activating a profile first brings a file that has replaced the link back to the profile of its account, and backs
  // it up.

  import opened Wrappers
  import opened Text
  import opened Dicts
  import opened Credentials

  // ---------------------------------------------------------------- data

  /** The active path: nothing, a link to a profile, a link to some other file (none if that is gone), or a file. */
  datatype Active = NoFile | LinkTo(profile: string) | LinkElsewhere(target: Option<Auth>) | Replaced(auth: Auth)

  datatype Home = Home(profiles: Dict<string, Auth>, active: Active, backups: seq<Auth>)

  function ActiveAuth(h: Home): Option<Auth> {
    match h.active
    case NoFile => None
    case LinkTo(p) => Get(h.profiles, p)
    case LinkElsewhere(target) => target
    case Replaced(auth) => Some(auth)
  }

  // ---------------------------------------------------------------- finding a profile

  predicate PathBefore(p: string, q: string) {
    StrLess(p + ".json", q + ".json")
  }

  function Earlier(r: Option<string>, p: string): Option<string> {
    if r.None? || PathBefore(p, r.value) then Some(p) else r
  }

  /** The first profile by path whose content is accepted. */
  function FirstWith(profiles: Dict<string, Auth>, accept: Auth -> bool): (r: Option<string>)
    ensures r.Some? ==> exists i :: 0 <= i < |profiles| && profiles[i].0 == r.value && accept(profiles[i].1)
    ensures r.None? <==> forall i :: 0 <= i < |profiles| ==> !accept(profiles[i].1)
  {
    if profiles == [] then None
    else
      var r, last := FirstWith(profiles[..|profiles| - 1], accept), profiles[|profiles| - 1];
      if accept(last.1) then Earlier(r, last.0) else r
  }

  /** `_profile_matching_active_identity` */
  function OfSameAccount(id: Identity, profiles: Dict<string, Auth>, auth: Auth): Option<string> {
    if id(auth).None? then None else FirstWith(profiles, a => id(a) == id(auth))
  }

  /** `current_profile`: by link, else by content, else by account. */
  function Current(id: Identity, h: Home): Option<string> {
    if h.active.LinkTo? && Has(h.profiles, h.active.profile) then Some(h.active.profile)
    else
      var auth := ActiveAuth(h);
      if auth.None? then None
      else
        var same := FirstWith(h.profiles, a => a == auth.value);
        if same.Some? then same else OfSameAccount(id, h.profiles, auth.value)
  }

  // ---------------------------------------------------------------- activating

  /** A file that has replaced the link goes back to the profile of its account. */
  function SyncedBack(id: Identity, h: Home): Home {
    if !h.active.Replaced? then h
    else
      var p := OfSameAccount(id, h.profiles, h.active.auth);
      if p.None? then h else h.(profiles := Put(h.profiles, p.value, h.active.auth))
  }

  function BackedUp(h: Home, p: string): Home {
    var auth := ActiveAuth(h);
    if auth.None? || h.active == LinkTo(p) then h else h.(backups := h.backups + [auth.value])
  }

  /** `activate`; none when there is no such profile. */
  function Activated(id: Identity, h: Home, p: string, backup: bool): Option<Home> {
    if !Has(h.profiles, p) then None
    else
      var h1 := SyncedBack(id, h);
      var h2 := if backup then BackedUp(h1, p) else h1;
      Some(h2.(active := LinkTo(p)))
  }

  // ---------------------------------------------------------------- what activation keeps

  lemma SyncedBackHas(id: Identity, h: Home, p: string)
    requires UniqueKeys(h.profiles)
    ensures Has(SyncedBack(id, h).profiles, p) <==> Has(h.profiles, p)
    ensures Has(h.profiles, p) ==> id(Get(SyncedBack(id, h).profiles, p).value) == id(Get(h.profiles, p).value)
    ensures UniqueKeys(SyncedBack(id, h).profiles)
  {
    if h.active.Replaced? {
      var q := OfSameAccount(id, h.profiles, h.active.auth);
      if q.Some? {
        GetPut(h.profiles, q.value, h.active.auth, p);
        var i :| 0 <= i < |h.profiles| && h.profiles[i].0 == q.value && id(h.profiles[i].1) == id(h.active.auth);
        GetAt(h.profiles, i);
      }
    }
  }

  /** After activating a profile, it is the current one, and every profile is still there and of the same account. */
  lemma ActivationMakesCurrent(id: Identity, h: Home, p: string, backup: bool, q: string)
    requires UniqueKeys(h.profiles) && Activated(id, h, p, backup).Some?
    ensures var after := Activated(id, h, p, backup).value;
      && Current(id, after) == Some(p)
      && (Has(after.profiles, q) <==> Has(h.profiles, q))
      && (Has(h.profiles, q) ==> id(Get(after.profiles, q).value) == id(Get(h.profiles, q).value))
  {
    SyncedBackHas(id, h, p);
    SyncedBackHas(id, h, q);
  }

  predicate Stored(h: Home, auth: Auth) {
    (exists i :: 0 <= i < |h.profiles| && h.profiles[i].1 == auth) || auth in h.backups
  }

  lemma HasStored(h: Home, p: string)
    requires Has(h.profiles, p)
    ensures Stored(h, Get(h.profiles, p).value)
  {
  }

  lemma SyncedBackStores(id: Identity, h: Home)
    requires UniqueKeys(h.profiles) && h.active.Replaced?
    ensures OfSameAccount(id, h.profiles, h.active.auth).Some? ==> Stored(SyncedBack(id, h), h.active.auth)
  {
    var p := OfSameAccount(id, h.profiles, h.active.auth);
    if p.Some? {
      GetPut(h.profiles, p.value, h.active.auth, p.value);
      HasStored(SyncedBack(id, h), p.value);
    }
  }

  /**
   * Activation with a backup keeps the credential that was active: it is in a profile or in the backups. What the
   * profiles held before is another matter, see SavedCredentialSurvives.
   */
  lemma ActivationKeepsCredential(id: Identity, h: Home, p: string)
    requires UniqueKeys(h.profiles) && Activated(id, h, p, true).Some? && ActiveAuth(h).Some?
    ensures Stored(Activated(id, h, p, true).value, ActiveAuth(h).value)
  {
    var h1 := SyncedBack(id, h);
    if h1.active == LinkTo(p) {
      HasStored(h, p);
    } else {
      assert ActiveAuth(h1) == ActiveAuth(h);
      assert ActiveAuth(h).value in BackedUp(h1, p).backups;
    }
  }

  /** What is backed up: whatever the active path reads as, but for a link to the profile that is activated. */
  lemma BackupsAre(id: Identity, h: Home, p: string, backup: bool)
    requires Activated(id, h, p, backup).Some?
    ensures var backups := Activated(id, h, p, backup).value.backups;
      if !backup then backups == h.backups
      else match h.active
        case NoFile => backups == h.backups
        case LinkTo(q) =>
          backups == if q != p && Has(h.profiles, q) then h.backups + [Get(h.profiles, q).value] else h.backups
        case LinkElsewhere(target) => backups == if target.Some? then h.backups + [target.value] else h.backups
        case Replaced(auth) => backups == h.backups + [auth]
  {
  }

  /**
   * Without a backup, exactly the credentials that belong to no saved account are lost: those of a file that is not a
   * link to a profile, matches no profile's account, and is stored nowhere.
   */
  lemma UnbackedActivation(id: Identity, h: Home, p: string)
    requires UniqueKeys(h.profiles) && Activated(id, h, p, false).Some? && ActiveAuth(h).Some?
    ensures var auth := ActiveAuth(h).value;
      Stored(Activated(id, h, p, false).value, auth) <==>
        Stored(h, auth) || (h.active.Replaced? && OfSameAccount(id, h.profiles, auth).Some?)
  {
    var auth := ActiveAuth(h).value;
    var after := Activated(id, h, p, false).value;
    if h.active.Replaced? && OfSameAccount(id, h.profiles, auth).Some? {
      SyncedBackStores(id, h);
      assert after.profiles == SyncedBack(id, h).profiles && after.backups == SyncedBack(id, h).backups;
    }
  }

  // ---------------------------------------------------------------- what activation overwrites

  /**
   * The file that has replaced the link is of this profile's account, comes first by path, and says something else.
   */
  predicate Overwrites(id: Identity, profiles: Dict<string, Auth>, active: Active, p: string, saved: Auth) {
    active.Replaced? && active.auth != saved && OfSameAccount(id, profiles, active.auth) == Some(p)
  }

  /** Another profile or a backup has this credential too. */
  predicate StoredElsewhere(h: Home, p: string, auth: Auth) {
    (exists i :: 0 <= i < |h.profiles| && h.profiles[i].0 != p && h.profiles[i].1 == auth) || auth in h.backups
  }

  lemma StoredByName(h: Home, p: string, auth: Auth)
    requires UniqueKeys(h.profiles)
    ensures Stored(h, auth) <==> Get(h.profiles, p) == Some(auth) || StoredElsewhere(h, p, auth)
  {
    if Get(h.profiles, p) == Some(auth) {
      HasStored(h, p);
    }
    if i :| 0 <= i < |h.profiles| && h.profiles[i].1 == auth && h.profiles[i].0 == p {
      GetAt(h.profiles, i);
    }
  }

  lemma PutKeepsOthers(h: Home, p: string, auth: Auth, saved: Auth)
    requires Has(h.profiles, p)
    ensures StoredElsewhere(h.(profiles := Put(h.profiles, p, auth)), p, saved) == StoredElsewhere(h, p, saved)
  {
    var d, e := h.profiles, Put(h.profiles, p, auth);
    assert e == Replace(d, p, auth);
    if i :| 0 <= i < |d| && d[i].0 != p && d[i].1 == saved {
      assert e[i] == d[i];
    }
    if i :| 0 <= i < |e| && e[i].0 != p && e[i].1 == saved {
      assert e[i] == d[i];
    }
  }

  lemma SyncedBackKeeps(id: Identity, h: Home, p: string)
    requires UniqueKeys(h.profiles) && Has(h.profiles, p)
    ensures var saved := Get(h.profiles, p).value;
      Stored(SyncedBack(id, h), saved) ==
        (!Overwrites(id, h.profiles, h.active, p, saved) || StoredElsewhere(h, p, saved))
  {
    var saved, h1 := Get(h.profiles, p).value, SyncedBack(id, h);
    SyncedBackHas(id, h, p);
    StoredByName(h1, p, saved);
    HasStored(h, p);
    if h.active.Replaced? && OfSameAccount(id, h.profiles, h.active.auth).Some? {
      var q := OfSameAccount(id, h.profiles, h.active.auth).value;
      GetPut(h.profiles, q, h.active.auth, p);
      if q == p {
        PutKeepsOthers(h, p, h.active.auth, saved);
      }
    }
  }

  /**
   * Activation brings the file that has replaced the link back by its account alone, so a saved credential that has
   * moved on meanwhile is overwritten, and not backed up. Exactly when it survives, for every profile: unless it is
   * the one overwritten by something else and stored nowhere else.
   */
  lemma SavedCredentialSurvives(id: Identity, h: Home, p: string, backup: bool, q: string)
    requires UniqueKeys(h.profiles) && Activated(id, h, p, backup).Some? && Has(h.profiles, q)
    ensures var saved := Get(h.profiles, q).value;
      Stored(Activated(id, h, p, backup).value, saved) ==
        (!Overwrites(id, h.profiles, h.active, q, saved) || StoredElsewhere(h, q, saved))
  {
    var saved, h1, after := Get(h.profiles, q).value, SyncedBack(id, h), Activated(id, h, p, backup).value;
    SyncedBackKeeps(id, h, q);
    assert after.profiles == h1.profiles;
    if Overwrites(id, h.profiles, h.active, q, saved) {
      assert ActiveAuth(h1) == Some(h.active.auth);
      assert saved in after.backups <==> saved in h1.backups;
    }
  }

  /** A refreshed token is lost: the file of an older session is of the same account, and is brought back over it. */
  lemma ActivationOverwritesNewer(id: Identity, saved: Auth, older: Auth, other: Auth)
    requires id(saved) == id(older) && id(older).Some? && id(other) != id(older) && saved != older && saved != other
    ensures var h := Home([("p", saved), ("q", other)], Replaced(older), []);
      Stored(h, saved) && Activated(id, h, "q", true).Some? && !Stored(Activated(id, h, "q", true).value, saved)
  {
    var profiles := [("p", saved), ("q", other)];
    var h := Home(profiles, Replaced(older), []);
    var accept := (a: Auth) => id(a) == id(older);
    assert profiles[..1][..0] == [] && profiles[..1] == [("p", saved)];
    assert FirstWith(profiles[..1], accept) == Some("p");
    assert FirstWith(profiles, accept) == Some("p");
    assert Get(profiles, "p") == Some(saved) && Get(profiles, "q") == Some(other);
    HasStored(h, "p");
    SavedCredentialSurvives(id, h, "q", true, "p");
    assert !StoredElsewhere(h, "p", saved);
  }

  // ---------------------------------------------------------------- renaming and removing

  function WithNewName(profiles: Dict<string, Auth>, p: string, q: string): Dict<string, Auth>
    requires Has(profiles, p)
  {
    Put(Pop(profiles, p), q, Get(profiles, p).value)
  }

  /** `rename`; none when there is no such profile, or the new name is in use. */
  function Renamed(id: Identity, h: Home, p: string, q: string): Option<Home> {
    if !Has(h.profiles, p) || Has(h.profiles, q) then None
    else
      var h1 := h.(profiles := WithNewName(h.profiles, p, q));
      if Current(id, h) == Some(p) then Activated(id, h1, q, false) else Some(h1)
  }

  /** `remove`; none when there is no such profile, or it is the current one. */
  function Removed(id: Identity, h: Home, p: string): Option<Home> {
    if !Has(h.profiles, p) || Current(id, h) == Some(p) then None
    else Some(h.(profiles := Pop(h.profiles, p)))
  }

  lemma WithNewNameUnique(profiles: Dict<string, Auth>, p: string, q: string)
    requires UniqueKeys(profiles) && Has(profiles, p)
    ensures UniqueKeys(WithNewName(profiles, p, q))
  {
  }

  lemma NewNameFound(profiles: Dict<string, Auth>, p: string, q: string)
    requires Has(profiles, p)
    ensures Get(WithNewName(profiles, p, q), q) == Get(profiles, p)
  {
    GetPut(Pop(profiles, p), q, Get(profiles, p).value, q);
  }

  /** Where a profile is after a rename. */
  function NameAfter(p: string, q: string, r: string): string {
    if r == p then q else r
  }

  lemma EntryMoves(d: Dict<string, Auth>, p: string, q: string, x: (string, Auth))
    requires UniqueKeys(d) && Has(d, p) && !Has(d, q) && x in d
    ensures (NameAfter(p, q, x.0), x.1) in WithNewName(d, p, q)
  {
    var i: nat :| i < |d| && d[i] == x;
    GetAt(d, i);
    GetPop(d, p, q);
    assert WithNewName(d, p, q) == Pop(d, p) + [(q, Get(d, p).value)];
  }

  lemma EntryCameFrom(d: Dict<string, Auth>, p: string, q: string, y: (string, Auth)) returns (x: (string, Auth))
    requires UniqueKeys(d) && Has(d, p) && !Has(d, q) && y in WithNewName(d, p, q)
    ensures x in d && y == (NameAfter(p, q, x.0), x.1)
  {
    GetPop(d, p, q);
    assert WithNewName(d, p, q) == Pop(d, p) + [(q, Get(d, p).value)];
    if y in Pop(d, p) {
      var i: nat :| i < |Pop(d, p)| && Pop(d, p)[i] == y;
      GetAt(Pop(d, p), i);
      x := y;
    } else {
      var i: nat :| i < |d| && d[i] == (p, Get(d, p).value);
      x := d[i];
    }
  }

  lemma RenamedElsewhere(h: Home, p: string, q: string, r: string, auth: Auth)
    requires UniqueKeys(h.profiles) && Has(h.profiles, p) && !Has(h.profiles, q) && r != q
    ensures StoredElsewhere(h.(profiles := WithNewName(h.profiles, p, q)), NameAfter(p, q, r), auth)
      == StoredElsewhere(h, r, auth)
  {
    var d, e := h.profiles, WithNewName(h.profiles, p, q);
    if i :| 0 <= i < |d| && d[i].0 != r && d[i].1 == auth {
      EntryMoves(d, p, q, d[i]);
      NotRenamedTo(d, q, d[i]);
      var j :| 0 <= j < |e| && e[j] == (NameAfter(p, q, d[i].0), auth);
    }
    if j :| 0 <= j < |e| && e[j].0 != NameAfter(p, q, r) && e[j].1 == auth {
      var x := EntryCameFrom(d, p, q, e[j]);
      var i :| 0 <= i < |d| && d[i] == x;
    }
  }

  lemma NotRenamedTo(d: Dict<string, Auth>, q: string, x: (string, Auth))
    requires !Has(d, q) && x in d
    ensures x.0 != q
  {
  }

  /** Exactly when a saved credential survives a rename: always, unless renaming the current profile overwrites it. */
  lemma SavedCredentialSurvivesRename(id: Identity, h: Home, p: string, q: string, r: string)
    requires UniqueKeys(h.profiles) && Renamed(id, h, p, q).Some? && Has(h.profiles, r)
    ensures var saved := Get(h.profiles, r).value;
      Stored(Renamed(id, h, p, q).value, saved) ==
        (Current(id, h) != Some(p) || StoredElsewhere(h, r, saved)
         || !Overwrites(id, WithNewName(h.profiles, p, q), h.active, NameAfter(p, q, r), saved))
  {
    var h1 := h.(profiles := WithNewName(h.profiles, p, q));
    WithNewNameUnique(h.profiles, p, q);
    RenamedGet(h.profiles, p, q, r);
    RenamedElsewhere(h, p, q, r, Get(h.profiles, r).value);
    HasStored(h1, NameAfter(p, q, r));
    if Current(id, h) == Some(p) {
      SavedCredentialSurvives(id, h1, q, false, NameAfter(p, q, r));
    }
  }

  lemma RenamedGet(profiles: Dict<string, Auth>, p: string, q: string, r: string)
    requires UniqueKeys(profiles) && Has(profiles, p) && !Has(profiles, q) && Has(profiles, r)
    ensures Get(WithNewName(profiles, p, q), NameAfter(p, q, r)) == Get(profiles, r)
  {
    GetPop(profiles, p, r);
    GetPut(Pop(profiles, p), q, Get(profiles, p).value, NameAfter(p, q, r));
  }

  /** Renaming the current profile leaves it current under its new name, and of the same account. */
  lemma RenamingKeepsCurrent(id: Identity, h: Home, p: string, q: string)
    requires UniqueKeys(h.profiles) && Renamed(id, h, p, q).Some? && Current(id, h) == Some(p)
    ensures var after := Renamed(id, h, p, q).value;
      && Current(id, after) == Some(q)
      && Has(after.profiles, q) && id(Get(after.profiles, q).value) == id(Get(h.profiles, p).value)
  {
    WithNewNameUnique(h.profiles, p, q);
    NewNameFound(h.profiles, p, q);
    var h1 := h.(profiles := WithNewName(h.profiles, p, q));
    ActivationMakesCurrent(id, h1, q, false, q);
  }

  /** A file that has replaced the link has the content, or the account, of the profile that is current. */
  predicate Matches(id: Identity, profiles: Dict<string, Auth>, p: string, auth: Auth) {
    var a := Get(profiles, p); a.Some? && (a.value == auth || (id(auth).Some? && id(a.value) == id(auth)))
  }

  lemma CurrentMatches(id: Identity, h: Home, p: string)
    requires UniqueKeys(h.profiles) && h.active.Replaced? && Current(id, h) == Some(p)
    ensures Matches(id, h.profiles, p, h.active.auth)
  {
    var i: nat :| i < |h.profiles| && h.profiles[i].0 == p
      && (h.profiles[i].1 == h.active.auth || (id(h.active.auth).Some? && id(h.profiles[i].1) == id(h.active.auth)));
    GetAt(h.profiles, i);
  }

  lemma MatchIsKept(id: Identity, h: Home, p: string)
    requires h.active.Replaced? && Matches(id, h.profiles, p, h.active.auth)
    ensures Stored(h, h.active.auth) || OfSameAccount(id, h.profiles, h.active.auth).Some?
  {
    var a := Get(h.profiles, p).value;
    var i :| 0 <= i < |h.profiles| && h.profiles[i] == (p, a);
    if a != h.active.auth {
      assert id(h.profiles[i].1) == id(h.active.auth);
    }
  }

  /** A credential of the active path that belongs to the current profile is not lost by renaming that profile. */
  lemma RenamingKeepsCredential(id: Identity, h: Home, p: string, q: string)
    requires UniqueKeys(h.profiles) && Renamed(id, h, p, q).Some? && Current(id, h) == Some(p)
    requires h.active.Replaced?
    ensures Stored(Renamed(id, h, p, q).value, h.active.auth)
  {
    CurrentMatches(id, h, p);
    WithNewNameUnique(h.profiles, p, q);
    NewNameFound(h.profiles, p, q);
    KeptUnderNewName(id, h.(profiles := WithNewName(h.profiles, p, q)), q);
  }

  lemma KeptUnderNewName(id: Identity, h: Home, p: string)
    requires UniqueKeys(h.profiles) && h.active.Replaced? && Matches(id, h.profiles, p, h.active.auth)
    ensures Activated(id, h, p, false).Some? && Stored(Activated(id, h, p, false).value, h.active.auth)
  {
    MatchIsKept(id, h, p);
    UnbackedActivation(id, h, p);
  }

  lemma PathOrder(p: string, q: string, r: string)
    ensures !(PathBefore(p, q) && PathBefore(q, p))
    ensures p != q ==> PathBefore(p, q) || PathBefore(q, p)
    ensures PathBefore(p, q) && PathBefore(q, r) ==> PathBefore(p, r)
  {
    StrLessTotal(p + ".json", q + ".json");
    if p + ".json" == q + ".json" {
      assert p == (p + ".json")[..|p|] && q == (q + ".json")[..|q|];
    }
    if PathBefore(p, q) && PathBefore(q, r) {
      StrLessTransitive(p + ".json", q + ".json", r + ".json");
    }
  }

  predicate Accepts(profiles: Dict<string, Auth>, accept: Auth -> bool, q: string) {
    exists i :: 0 <= i < |profiles| && profiles[i].0 == q && accept(profiles[i].1)
  }

  lemma {:induction false} FirstIsLeast(profiles: Dict<string, Auth>, accept: Auth -> bool, p: string, q: string)
    requires FirstWith(profiles, accept) == Some(p) && Accepts(profiles, accept, q)
    ensures !PathBefore(q, p)
  {
    var front, last := profiles[..|profiles| - 1], profiles[|profiles| - 1];
    var r := FirstWith(front, accept);
    var i :| 0 <= i < |profiles| && profiles[i].0 == q && accept(profiles[i].1);
    if i < |front| {
      assert front[i] == profiles[i];
      assert Accepts(front, accept, q);
      FirstIsLeast(front, accept, r.value, q);
      PathOrder(q, last.0, r.value);
    } else {
      PathOrder(q, p, q);
    }
  }

  /** What is left after the first is taken out comes later than anything before it. */
  lemma FirstWithoutPicked(profiles: Dict<string, Auth>, accept: Auth -> bool, p: string, x: string)
    requires UniqueKeys(profiles) && FirstWith(profiles, accept) == Some(p) && PathBefore(x, p)
    ensures var r := FirstWith(Pop(profiles, p), accept); r.Some? ==> PathBefore(x, r.value)
  {
    var rest := Pop(profiles, p);
    var r := FirstWith(rest, accept);
    if r.Some? {
      var i :| 0 <= i < |rest| && rest[i].0 == r.value && accept(rest[i].1);
      assert rest[i] in profiles;
      FirstIsLeast(profiles, accept, p, r.value);
      PathOrder(p, r.value, p);
      PathOrder(x, p, r.value);
    }
  }

  lemma FirstWithLast(front: Dict<string, Auth>, last: (string, Auth), accept: Auth -> bool)
    ensures FirstWith(front + [last], accept) ==
      if accept(last.1) then Earlier(FirstWith(front, accept), last.0) else FirstWith(front, accept)
  {
    assert (front + [last])[..|front|] == front;
  }

  /** Taking out the first leaves a later entry first, if that was not the last met. */
  lemma EarlierWithout(profiles: Dict<string, Auth>, accept: Auth -> bool, p: string, x: string)
    requires UniqueKeys(profiles) && FirstWith(profiles, accept) == Some(p) && Earlier(Some(p), x) != Some(p)
    ensures Earlier(FirstWith(Pop(profiles, p), accept), x) == Some(x)
  {
    FirstWithoutPicked(profiles, accept, p, x);
  }

  lemma {:induction false} FirstWithPop(profiles: Dict<string, Auth>, accept: Auth -> bool, p: string)
    requires UniqueKeys(profiles) && FirstWith(profiles, accept) != Some(p)
    ensures FirstWith(Pop(profiles, p), accept) == FirstWith(profiles, accept)
  {
    if profiles != [] && profiles[|profiles| - 1].0 != p {
      var front, last := profiles[..|profiles| - 1], profiles[|profiles| - 1];
      FirstWithLast(Pop(front, p), last, accept);
      if FirstWith(front, accept) == Some(p) {
        EarlierWithout(front, accept, p, last.0);
      } else {
        FirstWithPop(front, accept, p);
      }
    }
  }

  /** Removing a profile leaves the current profile current, and its credential as it is. */
  lemma RemovingKeepsCurrent(id: Identity, h: Home, p: string)
    requires UniqueKeys(h.profiles) && Removed(id, h, p).Some?
    ensures var after := Removed(id, h, p).value;
      && Current(id, after) == Current(id, h)
      && ActiveAuth(after) == ActiveAuth(h)
      && (Current(id, h).Some? ==> Get(after.profiles, Current(id, h).value) == Get(h.profiles, Current(id, h).value))
  {
    var after := Removed(id, h, p).value;
    if h.active.LinkTo? {
      GetPop(h.profiles, p, h.active.profile);
    }
    var auth := ActiveAuth(h);
    assert ActiveAuth(after) == auth;
    if auth.Some? && !(h.active.LinkTo? && Has(h.profiles, h.active.profile)) {
      FirstWithPop(h.profiles, a => a == auth.value, p);
      if FirstWith(h.profiles, a => a == auth.value).None? && id(auth.value).Some? {
        FirstWithPop(h.profiles, a => id(a) == id(auth.value), p);
      }
    }
    if Current(id, h).Some? {
      GetPop(h.profiles, p, Current(id, h).value);
    }
  }

  // ---------------------------------------------------------------- in place

  class AuthStore {
    const id: Identity
    var profiles: Dict<string, Auth>
    var active: Active
    var backups: seq<Auth>

    constructor (id: Identity)
      ensures this.id == id && State() == Home([], NoFile, [])
    {
      this.id := id;
      profiles, active, backups := [], NoFile, [];
    }

    function State(): Home
      reads this
    {
      Home(profiles, active, backups)
    }

    method SyncReplacedActive()
      modifies this`profiles
      ensures State() == SyncedBack(id, old(State()))
    {
      if !active.Replaced? {
        return;
      }
      var p := OfSameAccount(id, profiles, active.auth);
      if p.Some? {
        profiles := Put(profiles, p.value, active.auth);
      }
    }

    method BackUpActive(p: string)
      modifies this`backups
      ensures State() == BackedUp(old(State()), p)
    {
      var auth := ActiveAuth(State());
      if auth.None? || active == LinkTo(p) {
        return;
      }
      backups := backups + [auth.value];
    }

    /** False when there is no such profile. */
    method Activate(p: string, backup: bool) returns (ok: bool)
      modifies this
      ensures var after := Activated(id, old(State()), p, backup);
        ok == after.Some? && State() == (if ok then after.value else old(State()))
    {
      if !Has(profiles, p) {
        return false;
      }
      SyncReplacedActive();
      if backup {
        BackUpActive(p);
      }
      active := LinkTo(p);
      return true;
    }

    method Rename(p: string, q: string) returns (ok: bool)
      modifies this
      ensures var after := Renamed(id, old(State()), p, q);
        ok == after.Some? && State() == (if ok then after.value else old(State()))
    {
      if !Has(profiles, p) || Has(profiles, q) {
        return false;
      }
      var current := Current(id, State());
      profiles := WithNewName(profiles, p, q);
      if current == Some(p) {
        NewNameFound(old(profiles), p, q);
        ok := Activate(q, false);
      } else {
        ok := true;
      }
    }

    method Remove(p: string) returns (ok: bool)
      modifies this
      ensures var after := Removed(id, old(State()), p);
        ok == after.Some? && State() == (if ok then after.value else old(State()))
    {
      if !Has(profiles, p) || Current(id, State()) == Some(p) {
        return false;
      }
      profiles := Pop(profiles, p);
      return true;
    }
  }
}
