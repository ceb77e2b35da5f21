/** Numbered aliases over whole runs: synchronizing is idempotent, and a profile's own command stays with it. */
module AliasRuns {
  import opened Wrappers
  import opened Dicts
  import opened Aliases

  // ---------------------------------------------------------------- one synchronization

  /** The number of a saved profile. */
  lemma HasNumber(files: Files, p: string) returns (n: nat)
    requires Has(files, p)
    ensures 0 < n <= |files| && NewestFirst(files)[n - 1].0 == p
  {
    var sorted := NewestFirst(files);
    var i :| 0 <= i < |files| && files[i] == (p, Get(files, p).value);
    assert files[i] in multiset(sorted);
    var j :| 0 <= j < |sorted| && sorted[j] == files[i];
    n := j + 1;
  }

  lemma BeyondIsFree(k: Kind, n: nat, m: nat)
    requires m > n
    ensures !Taken(k, AliasName(k.provider, m), n)
  {
    forall i: nat | 0 < i <= n ensures AliasName(k.provider, m) != AliasName(k.provider, i) {
      if AliasName(k.provider, m) == AliasName(k.provider, i) {
        AliasNameInjective(k.provider, m, i);
      }
    }
  }

  /** No numbered alias is left beyond the number of profiles. */
  lemma NothingBeyond(t: Table, k: Kind, files: Files, p: string, m: nat)
    requires UniqueKeys(t) && m > |files|
    ensures !CustomAt(Synced(t, k, files), k, p, m)
  {
    BeyondIsFree(k, |files|, m);
    GetSyncedOther(t, k, files, AliasName(k.provider, m));
    AliasIndexIs(k.provider, AliasName(k.provider, m), m);
  }

  lemma NumberedCustomAt(t: Table, k: Kind, files: Files, p: string, m: nat)
    requires 0 < m <= |files|
    ensures CustomAt(Synced(t, k, files), k, p, m) <==>
      NewestFirst(files)[m - 1].0 == p && CommandOf(t, k, p) != k.default
  {
    GetSynced(t, k, files, m);
  }

  /** Synchronizing changes no profile's command. */
  lemma SyncKeepsCommand(t: Table, k: Kind, files: Files, p: string)
    requires UniqueKeys(t) && UniqueKeys(files) && Has(files, p)
    ensures CommandOf(Synced(t, k, files), k, p) == CommandOf(t, k, p)
  {
    var n := HasNumber(files, p);
    var after := Synced(t, k, files);
    SyncedUnique(t, k, files);
    LowestIs(after, k, p);
    var r := Lowest(after, k, p);
    if r.Some? {
      ItsNumber(t, k, files, p, n, r.value.0);
      GetSynced(t, k, files, n);
    } else {
      NumberedCustomAt(t, k, files, p, n);
    }
  }

  /** After synchronizing, an alias with a command of a profile's own is the one with the profile's number. */
  lemma ItsNumber(t: Table, k: Kind, files: Files, p: string, n: nat, m: nat)
    requires UniqueKeys(t) && UniqueKeys(files) && 0 < n <= |files| && NewestFirst(files)[n - 1].0 == p
    requires CustomAt(Synced(t, k, files), k, p, m)
    ensures m == n && CommandOf(t, k, p) != k.default
  {
    SortedFacts(files);
    if 0 < m <= |files| {
      NumberedCustomAt(t, k, files, p, m);
      SameKeySameEntry(NewestFirst(files), n - 1, m - 1);
    } else if m > 0 {
      NothingBeyond(t, k, files, p, m);
    }
  }

  /** Synchronizing twice is synchronizing once: every name stands for the same. */
  lemma SyncIsIdempotent(t: Table, k: Kind, files: Files, name: string)
    requires UniqueKeys(t) && UniqueKeys(files)
    ensures Get(Synced(Synced(t, k, files), k, files), name) == Get(Synced(t, k, files), name)
  {
    var once := Synced(t, k, files);
    SyncedUnique(t, k, files);
    if Taken(k, name, |files|) {
      var n: nat :| 0 < n <= |files| && name == AliasName(k.provider, n);
      GetSynced(t, k, files, n);
      GetSynced(once, k, files, n);
      var p := NewestFirst(files)[n - 1].0;
      SortedFacts(files);
      assert NewestFirst(files)[n - 1] in multiset(files);
      assert Has(files, p);
      SyncKeepsCommand(t, k, files, p);
    } else {
      GetSyncedOther(t, k, files, name);
      GetSyncedOther(once, k, files, name);
    }
  }

  // ---------------------------------------------------------------- runs

  /** The saved profiles and the alias file. */
  datatype Store = Store(files: Files, table: Table)

  datatype Event =
    | Saves(name: string, mtime: int)     // a profile is added, or written again
    | Removes(name: string)
    | Renames(name: string, other: string)
    | Syncs

  /** An operation that raises instead does not happen. */
  predicate Possible(st: Store, k: Kind, e: Event) {
    match e
    case Saves(_, _) => true
    case Removes(p) => Has(st.files, p)
    case Renames(p, q) => Has(st.files, p) && !Has(st.files, q)
    case Syncs => k.default != [] || st.files == []
  }

  function Moved(k: Kind, p: string, q: string): Alias -> Alias {
    (a: Alias) => if a.provider == k.provider && a.profile == p then a.(profile := q) else a
  }

  function Keeps(k: Kind, p: string): (string, Alias) -> bool {
    (name: string, a: Alias) => !(a.provider == k.provider && a.profile == p)
  }

  function Step(st: Store, k: Kind, e: Event): Store {
    if !Possible(st, k, e) then st
    else
      match e
      case Saves(p, mtime) => st.(files := Put(st.files, p, mtime))
      case Removes(p) => Store(Pop(st.files, p), Filter(st.table, Keeps(k, p)))
      case Renames(p, q) => Store(Put(Pop(st.files, p), q, Get(st.files, p).value), MapValues(st.table, Moved(k, p, q)))
      case Syncs => st.(table := Synced(st.table, k, st.files))
  }

  function Run(st: Store, k: Kind, es: seq<Event>): Store {
    if es == [] then st else Step(Run(st, k, es[..|es| - 1]), k, es[|es| - 1])
  }

  /** The name a profile has after one event; none when it is removed. */
  function NameAfter(st: Store, k: Kind, e: Event, p: string): Option<string> {
    if e == Removes(p) then None
    else if e.Renames? && e.name == p && Possible(st, k, e) then Some(e.other)
    else Some(p)
  }

  /** The name it has after a run, if it survives. */
  function Follow(st: Store, k: Kind, es: seq<Event>, p: string): Option<string> {
    if es == [] then Some(p)
    else
      var front := es[..|es| - 1];
      var q := Follow(st, k, front, p);
      if q.None? then None else NameAfter(Run(st, k, front), k, es[|es| - 1], q.value)
  }

  /** Names are distinct, and every alias of the provider is of a saved profile. */
  ghost predicate Sound(st: Store, k: Kind) {
    UniqueKeys(st.files) && UniqueKeys(st.table) && AllSaved(st, k)
  }

  predicate AllSaved(st: Store, k: Kind) {
    forall i :: 0 <= i < |st.table| && st.table[i].1.provider == k.provider ==> Has(st.files, st.table[i].1.profile)
  }

  // ---------------------------------------------------------------- every step keeps the commands

  /** No alias of the provider is of a profile that is not saved. */
  lemma NoStray(st: Store, k: Kind, q: string, n: nat)
    requires AllSaved(st, k) && !Has(st.files, q)
    ensures !CustomAt(st.table, k, q, n)
  {
    var a := Get(st.table, AliasName(k.provider, n));
    if a.Some? {
      var i :| 0 <= i < |st.table| && st.table[i] == (AliasName(k.provider, n), a.value);
    }
  }

  lemma RenameKeepsCommand(st: Store, k: Kind, p: string, q: string, x: string)
    requires Sound(st, k) && Has(st.files, p) && !Has(st.files, q) && (x == p || (Has(st.files, x) && x != q))
    ensures CommandOf(MapValues(st.table, Moved(k, p, q)), k, if x == p then q else x) == CommandOf(st.table, k, x)
  {
    var after, y := MapValues(st.table, Moved(k, p, q)), if x == p then q else x;
    forall n: nat ensures SameCustom(after, y, st.table, x, k, n) {
      GetMapValues(st.table, Moved(k, p, q), AliasName(k.provider, n));
      NoStray(st, k, q, n);
    }
    CommandDependsOn(after, y, st.table, x, k);
  }

  lemma RemoveKeepsCommand(st: Store, k: Kind, p: string, x: string)
    requires Sound(st, k) && x != p
    ensures CommandOf(Filter(st.table, Keeps(k, p)), k, x) == CommandOf(st.table, k, x)
  {
    var after := Filter(st.table, Keeps(k, p));
    FilterUnique(st.table, Keeps(k, p));
    forall n: nat ensures SameCustom(after, x, st.table, x, k, n) {
      GetFilter(st.table, Keeps(k, p), AliasName(k.provider, n));
    }
    CommandDependsOn(after, x, st.table, x, k);
  }

  lemma RenamedHas(files: Files, p: string, q: string, x: string)
    requires UniqueKeys(files) && Has(files, p) && !Has(files, q)
    ensures Has(Put(Pop(files, p), q, Get(files, p).value), x) <==> x == q || (x != p && Has(files, x))
  {
    GetPop(files, p, x);
    GetPut(Pop(files, p), q, Get(files, p).value, x);
  }

  lemma StepFiles(st: Store, k: Kind, e: Event)
    requires Possible(st, k, e) && (e.Renames? ==> Has(st.files, e.name))
    ensures Step(st, k, e).files == FilesAfter(st.files, e)
  {
  }

  function FilesAfter(files: Files, e: Event): Files
    requires e.Renames? ==> Has(files, e.name)
  {
    match e
    case Saves(p, mtime) => Put(files, p, mtime)
    case Removes(p) => Pop(files, p)
    case Renames(p, q) => Put(Pop(files, p), q, Get(files, p).value)
    case Syncs => files
  }

  lemma StepKeepsFile(st: Store, k: Kind, e: Event, p: string)
    requires Sound(st, k) && Has(st.files, p) && NameAfter(st, k, e, p).Some?
    ensures Has(Step(st, k, e).files, NameAfter(st, k, e, p).value)
  {
    if Possible(st, k, e) {
      StepFiles(st, k, e);
      NamedFile(st.files, e, p, NameAfter(st, k, e, p).value);
    }
  }

  /** The file of a profile that is not removed, under its new name if it is renamed. */
  lemma NamedFile(files: Files, e: Event, p: string, q: string)
    requires UniqueKeys(files) && Has(files, p) && e != Removes(p)
    requires e.Renames? ==> Has(files, e.name) && !Has(files, e.other)
    requires q == if e.Renames? && e.name == p then e.other else p
    ensures Has(FilesAfter(files, e), q)
  {
    match e
    case Saves(r, mtime) => SavedHas(files, r, mtime, q);
    case Removes(r) => RemovedHas(files, r, q);
    case Renames(r, s) => RenamedHas(files, r, s, q);
    case Syncs =>
  }

  lemma SavedHas(files: Files, p: string, mtime: int, x: string)
    ensures Has(Put(files, p, mtime), x) <==> x == p || Has(files, x)
  {
    GetPut(files, p, mtime, x);
  }

  lemma RemovedHas(files: Files, p: string, x: string)
    requires UniqueKeys(files)
    ensures Has(Pop(files, p), x) <==> x != p && Has(files, x)
  {
    GetPop(files, p, x);
  }

  lemma StepKeepsCommand(st: Store, k: Kind, e: Event, p: string)
    requires Sound(st, k) && Has(st.files, p) && NameAfter(st, k, e, p).Some?
    ensures CommandOf(Step(st, k, e).table, k, NameAfter(st, k, e, p).value) == CommandOf(st.table, k, p)
  {
    if Possible(st, k, e) {
      match e
      case Saves(r, mtime) =>
      case Removes(r) => RemoveKeepsCommand(st, k, r, p);
      case Renames(r, q) => RenameKeepsCommand(st, k, r, q, p);
      case Syncs => SyncKeepsCommand(st.table, k, st.files, p);
    }
  }

  // ---------------------------------------------------------------- every step keeps the table sound

  lemma RenameKeepsSound(st: Store, k: Kind, p: string, q: string)
    requires Sound(st, k) && Has(st.files, p) && !Has(st.files, q)
    ensures Sound(Step(st, k, Renames(p, q)), k)
  {
    var after := Step(st, k, Renames(p, q));
    forall i | 0 <= i < |after.table| && after.table[i].1.provider == k.provider
      ensures Has(after.files, after.table[i].1.profile)
    {
      var r := after.table[i].1.profile;
      assert st.table[i].1.provider == k.provider;
      RenamedHas(st.files, p, q, r);
      RenamedHas(st.files, p, q, st.table[i].1.profile);
    }
  }

  lemma RemoveKeepsSound(st: Store, k: Kind, p: string)
    requires Sound(st, k) && Has(st.files, p)
    ensures Sound(Step(st, k, Removes(p)), k)
  {
    var after := Step(st, k, Removes(p));
    FilterUnique(st.table, Keeps(k, p));
    forall i | 0 <= i < |after.table| && after.table[i].1.provider == k.provider
      ensures Has(after.files, after.table[i].1.profile)
    {
      assert after.table[i] in after.table;
      var j :| 0 <= j < |st.table| && st.table[j] == after.table[i];
      RemovedHas(st.files, p, st.table[j].1.profile);
    }
  }

  lemma SyncKeepsSound(st: Store, k: Kind)
    requires Sound(st, k)
    ensures Sound(Step(st, k, Syncs), k)
  {
    var after := Step(st, k, Syncs);
    SyncedUnique(st.table, k, st.files);
    forall i | 0 <= i < |after.table| && after.table[i].1.provider == k.provider
      ensures Has(st.files, after.table[i].1.profile)
    {
      if Possible(st, k, Syncs) {
        SyncedEntry(st, k, after.table[i].0);
        GetAt(after.table, i);
      }
    }
  }

  lemma SyncedEntry(st: Store, k: Kind, name: string)
    requires Sound(st, k)
    ensures var a := Get(Synced(st.table, k, st.files), name);
      a.Some? && a.value.provider == k.provider ==> Has(st.files, a.value.profile)
  {
    if Taken(k, name, |st.files|) {
      var n: nat :| 0 < n <= |st.files| && name == AliasName(k.provider, n);
      GetSynced(st.table, k, st.files, n);
      var f := NewestFirst(st.files)[n - 1];
      assert f in multiset(st.files);
      var i :| 0 <= i < |st.files| && st.files[i] == f;
    } else {
      GetSyncedOther(st.table, k, st.files, name);
      if Get(st.table, name).Some? {
        var i :| 0 <= i < |st.table| && st.table[i] == (name, Get(st.table, name).value);
      }
    }
  }

  lemma SaveKeepsSound(st: Store, k: Kind, p: string, mtime: int)
    requires Sound(st, k)
    ensures Sound(Step(st, k, Saves(p, mtime)), k)
  {
    forall i | 0 <= i < |st.table| && st.table[i].1.provider == k.provider
      ensures Has(Put(st.files, p, mtime), st.table[i].1.profile)
    {
      SavedHas(st.files, p, mtime, st.table[i].1.profile);
    }
  }

  lemma StepKeepsSound(st: Store, k: Kind, e: Event)
    requires Sound(st, k)
    ensures Sound(Step(st, k, e), k)
  {
    if Possible(st, k, e) {
      match e
      case Saves(p, mtime) => SaveKeepsSound(st, k, p, mtime);
      case Removes(p) => RemoveKeepsSound(st, k, p);
      case Renames(p, q) => RenameKeepsSound(st, k, p, q);
      case Syncs => SyncKeepsSound(st, k);
    }
  }

  // ---------------------------------------------------------------- main results

  /**
   * Commands stay with their profiles. Over any run of saves, removals, renames and synchronizations, a profile that
   * survives is still saved, under the name it now has, with the command it had at the start.
   */
  lemma {:induction false} CommandsStay(st: Store, k: Kind, es: seq<Event>, p: string)
    requires Sound(st, k) && Has(st.files, p)
    ensures Sound(Run(st, k, es), k)
    ensures var q := Follow(st, k, es, p);
      q.Some? ==>
        && Has(Run(st, k, es).files, q.value)
        && CommandOf(Run(st, k, es).table, k, q.value) == CommandOf(st.table, k, p)
  {
    if es != [] {
      var front := es[..|es| - 1];
      CommandsStay(st, k, front, p);
      var mid, q := Run(st, k, front), Follow(st, k, front, p);
      StepKeepsSound(mid, k, es[|es| - 1]);
      if Follow(st, k, es, p).Some? {
        StepKeepsFile(mid, k, es[|es| - 1], q.value);
        StepKeepsCommand(mid, k, es[|es| - 1], q.value);
      }
    }
  }

  /** And after one more synchronization, that command is under the profile's number. */
  lemma NumberedCommandsStay(st: Store, k: Kind, es: seq<Event>, p: string) returns (n: nat)
    requires Sound(st, k) && Has(st.files, p) && Follow(st, k, es, p).Some?
    ensures var q, end := Follow(st, k, es, p).value, Run(st, k, es);
      && 0 < n <= |end.files| && NewestFirst(end.files)[n - 1].0 == q
      && Get(Synced(end.table, k, end.files), AliasName(k.provider, n))
        == Some(Alias(k.provider, q, CommandOf(st.table, k, p)))
  {
    CommandsStay(st, k, es, p);
    var q, end := Follow(st, k, es, p).value, Run(st, k, es);
    n := HasNumber(end.files, q);
    GetSynced(end.table, k, end.files, n);
  }
}
