/**
 * The numbered aliases of store.py: provider1, provider2, ... for the saved profiles, newest first, with the command
 * a user has given an alias staying with its profile.
 */
module Aliases {
  import opened Wrappers
  import opened Text
  import opened Dicts

  // ---------------------------------------------------------------- names and numbers

  function AliasName(provider: string, n: nat): string {
    provider + Decimal(n)
  }

  /**
   * `numbered_provider_alias_index`: the number of a name made of the provider and a numeral without leading zeros.
   */
  function AliasIndex(provider: string, name: string): Option<nat> {
    if !(provider <= name) then None
    else
      var digits := name[|provider|..];
      if digits != "" && AllDigits(digits) && digits[0] != '0' then Some(Parse(digits)) else None
  }

  /** A name has the number n exactly when it is the n-th alias name. */
  lemma AliasIndexIs(provider: string, name: string, n: nat)
    ensures AliasIndex(provider, name) == Some(n) <==> n > 0 && name == AliasName(provider, n)
  {
    if provider <= name {
      var digits := name[|provider|..];
      assert name == provider + digits;
      if digits != "" && AllDigits(digits) && digits[0] != '0' {
        DecimalParse(digits);
      }
    }
    if n > 0 && name == AliasName(provider, n) {
      assert name[|provider|..] == Decimal(n);
      ParseDecimal(n);
    }
  }

  // ---------------------------------------------------------------- data

  type Command = seq<string>

  datatype Alias = Alias(provider: string, profile: string, command: Command)

  /** The alias file, by name; and the saved profiles with the times of modification of their files. */
  type Table = Dict<string, Alias>

  type Saved = (string, int)

  type Files = Dict<string, int>

  /** What stays the same: the provider, and the command of an alias nobody has changed. */
  datatype Kind = Kind(provider: string, default: Command)

  predicate IsNumbered(k: Kind, name: string, a: Alias) {
    a.provider == k.provider && AliasIndex(k.provider, name).Some?
  }

  // ---------------------------------------------------------------- newest first

  predicate Before(a: Saved, b: Saved) {
    a.1 > b.1 || (a.1 == b.1 && StrLess(a.0 + ".json", b.0 + ".json"))
  }

  function Insert(sorted: seq<Saved>, a: Saved): (r: seq<Saved>)
    ensures |r| == |sorted| + 1
    ensures multiset(r) == multiset(sorted) + multiset{a}
  {
    if sorted == [] then [a]
    else if Before(a, sorted[0]) then
      assert multiset([a] + sorted) == multiset(sorted) + multiset{a};
      [a] + sorted
    else
      assert sorted == [sorted[0]] + sorted[1..];
      [sorted[0]] + Insert(sorted[1..], a)
  }

  /** `sorted(..., key=_profile_mtime_desc_key)` */
  function NewestFirst(files: Files): (r: seq<Saved>)
    ensures |r| == |files|
    ensures multiset(r) == multiset(files)
  {
    if files == [] then []
    else
      assert files == files[..|files| - 1] + [files[|files| - 1]];
      Insert(NewestFirst(files[..|files| - 1]), files[|files| - 1])
  }

  predicate Ordered(s: seq<Saved>) {
    forall i, j :: 0 <= i < j < |s| ==> !Before(s[j], s[i])
  }

  lemma BeforeIsOrder(a: Saved, b: Saved, c: Saved)
    ensures Before(a, b) ==> !Before(b, a)
    ensures !Before(a, b) && !Before(b, c) ==> !Before(a, c)
  {
    StrLessTotal(a.0 + ".json", b.0 + ".json");
    StrLessTotal(b.0 + ".json", c.0 + ".json");
    StrLessTotal(a.0 + ".json", c.0 + ".json");
    if StrLess(c.0 + ".json", b.0 + ".json") && StrLess(b.0 + ".json", a.0 + ".json") {
      StrLessTransitive(c.0 + ".json", b.0 + ".json", a.0 + ".json");
    }
  }

  lemma {:induction false} InsertOrdered(sorted: seq<Saved>, a: Saved)
    requires Ordered(sorted)
    ensures Ordered(Insert(sorted, a))
  {
    if sorted != [] {
      var r := Insert(sorted, a);
      if Before(a, sorted[0]) {
        forall j | 0 < j < |r| ensures !Before(r[j], a) {
          BeforeIsOrder(a, sorted[0], a);
          BeforeIsOrder(sorted[j - 1], sorted[0], a);
        }
      } else {
        InsertOrdered(sorted[1..], a);
        forall j | 0 < j < |r| ensures !Before(r[j], r[0]) {
          assert r[j] in multiset(Insert(sorted[1..], a));
          assert r[j] == a || r[j] in sorted[1..];
        }
      }
    }
  }

  lemma {:induction false} NewestFirstOrdered(files: Files)
    ensures Ordered(NewestFirst(files))
  {
    if files != [] {
      NewestFirstOrdered(files[..|files| - 1]);
      InsertOrdered(NewestFirst(files[..|files| - 1]), files[|files| - 1]);
    }
  }

  /** A profile whose file was changed later comes first; of two changed at once, the one whose file name does. */
  lemma NewestComesFirst(files: Files, i: nat, j: nat)
    requires i < j < |files|
    ensures var sorted := NewestFirst(files);
      && sorted[i].1 >= sorted[j].1
      && (sorted[i].1 == sorted[j].1 ==> !StrLess(sorted[j].0 + ".json", sorted[i].0 + ".json"))
  {
    NewestFirstOrdered(files);
  }

  // ---------------------------------------------------------------- the command of a profile

  /** The n-th alias belongs to this profile and has a command of its own. */
  predicate CustomAt(t: Table, k: Kind, p: string, n: nat) {
    n > 0 && var a := Get(t, AliasName(k.provider, n));
    a.Some? && a.value.provider == k.provider && a.value.profile == p && a.value.command != k.default
  }

  /** The command that stays with a profile: that of its lowest-numbered alias with one of its own, or the default. */
  ghost predicate IsCommandOf(t: Table, k: Kind, p: string, c: Command) {
    if exists n :: CustomAt(t, k, p, n) then
      exists n :: CustomAt(t, k, p, n) && (forall m :: m < n ==> !CustomAt(t, k, p, m))
                  && c == Get(t, AliasName(k.provider, n)).value.command
    else c == k.default
  }

  /** The numbered alias with the lowest number among those with a command of their own for this profile. */
  function Lowest(t: Table, k: Kind, p: string): Option<(nat, Command)> {
    if t == [] then None
    else
      var r := Lowest(t[..|t| - 1], k, p);
      var (name, a) := t[|t| - 1];
      var n := AliasIndex(k.provider, name);
      if n.None? || a.provider != k.provider || a.profile != p || a.command == k.default then r
      else if r.None? || n.value < r.value.0 then Some((n.value, a.command))
      else r
  }

  function CommandOf(t: Table, k: Kind, p: string): Command {
    var r := Lowest(t, k, p);
    if r.Some? then r.value.1 else k.default
  }

  ghost predicate IsLowest(t: Table, k: Kind, p: string, r: Option<(nat, Command)>) {
    && (r.Some? ==> CustomAt(t, k, p, r.value.0) && Get(t, AliasName(k.provider, r.value.0)).value.command == r.value.1)
    && forall n: nat :: (r.Some? ==> n < r.value.0) ==> !CustomAt(t, k, p, n)
  }

  lemma CustomFront(t: Table, k: Kind, p: string, n: nat)
    requires UniqueKeys(t) && t != []
    ensures var (name, a) := t[|t| - 1];
      CustomAt(t, k, p, n) <==>
        if AliasIndex(k.provider, name) == Some(n)
          then a.provider == k.provider && a.profile == p && a.command != k.default
        else CustomAt(t[..|t| - 1], k, p, n)
  {
    AliasIndexIs(k.provider, t[|t| - 1].0, n);
    GetFront(t, AliasName(k.provider, n));
  }

  lemma {:induction false} LowestIs(t: Table, k: Kind, p: string)
    requires UniqueKeys(t)
    ensures IsLowest(t, k, p, Lowest(t, k, p))
  {
    if t != [] {
      var front, name, r := t[..|t| - 1], t[|t| - 1].0, Lowest(t, k, p);
      LowestIs(front, k, p);
      if r.Some? {
        CustomFront(t, k, p, r.value.0);
        AliasIndexIs(k.provider, name, r.value.0);
        GetFront(t, AliasName(k.provider, r.value.0));
      }
      forall n: nat | r.Some? ==> n < r.value.0 ensures !CustomAt(t, k, p, n) {
        CustomFront(t, k, p, n);
      }
    }
  }

  /** The lowest-numbered alias with a command of its own wins. */
  lemma LowestNumberWins(t: Table, k: Kind, p: string)
    requires UniqueKeys(t)
    ensures IsCommandOf(t, k, p, CommandOf(t, k, p))
  {
    LowestIs(t, k, p);
  }

  /** The n-th alias is the same for p in t as for q in u, where it counts. */
  predicate SameCustom(t: Table, p: string, u: Table, q: string, k: Kind, n: nat) {
    var name := AliasName(k.provider, n);
    && (CustomAt(t, k, p, n) <==> CustomAt(u, k, q, n))
    && (CustomAt(t, k, p, n) && CustomAt(u, k, q, n) ==> Get(t, name).value.command == Get(u, name).value.command)
  }

  /** The command of a profile depends on nothing but its numbered aliases. */
  lemma CommandDependsOn(t: Table, p: string, u: Table, q: string, k: Kind)
    requires UniqueKeys(t) && UniqueKeys(u)
    requires forall n: nat :: SameCustom(t, p, u, q, k, n)
    ensures CommandOf(t, k, p) == CommandOf(u, k, q)
  {
    LowestIs(t, k, p);
    LowestIs(u, k, q);
    var r, s := Lowest(t, k, p), Lowest(u, k, q);
    if r.Some? {
      assert SameCustom(t, p, u, q, k, r.value.0);
    }
    if s.Some? {
      assert SameCustom(t, p, u, q, k, s.value.0);
    }
  }

  // ---------------------------------------------------------------- synchronizing

  /** The aliases that stay: custom ones, and those of other providers. */
  function Others(t: Table, k: Kind): Table {
    Filter(t, (name, a) => !IsNumbered(k, name, a))
  }

  function Numbered(k: Kind, ordered: seq<(string, Command)>, n: nat): Alias
    requires 0 < n <= |ordered|
  {
    Alias(k.provider, ordered[n - 1].0, ordered[n - 1].1)
  }

  /** The first n numbered aliases, for these profiles and commands. */
  function WithNumbered(t: Table, k: Kind, ordered: seq<(string, Command)>, n: nat): Table
    requires n <= |ordered|
  {
    if n == 0 then t
    else Put(WithNumbered(t, k, ordered, n - 1), AliasName(k.provider, n), Numbered(k, ordered, n))
  }

  /** Each profile with its command. */
  function Assigned(t: Table, k: Kind, sorted: seq<Saved>): (r: seq<(string, Command)>)
    ensures |r| == |sorted|
  {
    seq(|sorted|, i requires 0 <= i < |sorted| => (sorted[i].0, CommandOf(t, k, sorted[i].0)))
  }

  /** `sync_numbered_aliases`, where it does not raise. */
  function Synced(t: Table, k: Kind, files: Files): Table {
    WithNumbered(Others(t, k), k, Assigned(t, k, NewestFirst(files)), |files|)
  }

  lemma AliasNameInjective(provider: string, m: nat, n: nat)
    requires AliasName(provider, m) == AliasName(provider, n)
    ensures m == n
  {
    CancelPrefix(provider, Decimal(m), Decimal(n));
    DecimalInjective(m, n);
  }

  lemma {:induction false} WithNumberedUnique(t: Table, k: Kind, ordered: seq<(string, Command)>, n: nat)
    requires n <= |ordered| && UniqueKeys(t)
    ensures UniqueKeys(WithNumbered(t, k, ordered, n))
  {
    if n > 0 {
      WithNumberedUnique(t, k, ordered, n - 1);
    }
  }

  lemma AssignedIs(t: Table, k: Kind, sorted: seq<Saved>, n: nat)
    requires 0 < n <= |sorted|
    ensures var p := sorted[n - 1].0;
      Numbered(k, Assigned(t, k, sorted), n) == Alias(k.provider, p, CommandOf(t, k, p))
  {
  }

  lemma {:induction false} GetNumbered(t: Table, k: Kind, ordered: seq<(string, Command)>, n: nat, i: nat)
    requires 0 < i <= n <= |ordered|
    ensures Get(WithNumbered(t, k, ordered, n), AliasName(k.provider, i)) == Some(Numbered(k, ordered, i))
  {
    var name := AliasName(k.provider, n);
    GetPut(WithNumbered(t, k, ordered, n - 1), name, Numbered(k, ordered, n), AliasName(k.provider, i));
    if i < n {
      GetNumbered(t, k, ordered, n - 1, i);
      if AliasName(k.provider, i) == name {
        AliasNameInjective(k.provider, i, n);
      }
    }
  }

  /** One of the first n alias names. */
  ghost predicate Taken(k: Kind, name: string, n: nat) {
    exists i: nat :: 0 < i <= n && name == AliasName(k.provider, i)
  }

  lemma {:induction false} GetUnnumbered(t: Table, k: Kind, ordered: seq<(string, Command)>, n: nat, name: string)
    requires n <= |ordered| && !Taken(k, name, n)
    ensures Get(WithNumbered(t, k, ordered, n), name) == Get(t, name)
  {
    if n > 0 {
      GetUnnumbered(t, k, ordered, n - 1, name);
      GetPut(WithNumbered(t, k, ordered, n - 1), AliasName(k.provider, n), Numbered(k, ordered, n), name);
    }
  }

  lemma SortedFacts(files: Files)
    ensures Ordered(NewestFirst(files)) && multiset(NewestFirst(files)) == multiset(files)
    ensures |NewestFirst(files)| == |files|
    ensures UniqueKeys(files) ==> UniqueKeys(NewestFirst(files))
  {
    var sorted := NewestFirst(files);
    NewestFirstOrdered(files);
    if UniqueKeys(files) {
      ReorderedUnique(files, sorted);
    }
  }

  /** The alias of the n-th newest profile. */
  function NthAlias(t: Table, k: Kind, files: Files, n: nat): Alias
    requires 0 < n <= |NewestFirst(files)|
  {
    var p := NewestFirst(files)[n - 1].0; Alias(k.provider, p, CommandOf(t, k, p))
  }

  /** The n-th alias afterwards is that of the n-th newest profile, with the command that stays with it. */
  lemma GetSynced(t: Table, k: Kind, files: Files, n: nat)
    requires 0 < n <= |files|
    ensures Get(Synced(t, k, files), AliasName(k.provider, n)) == Some(NthAlias(t, k, files, n))
  {
    var ordered := Assigned(t, k, NewestFirst(files));
    GetNumbered(Others(t, k), k, ordered, |files|, n);
    AssignedIs(t, k, NewestFirst(files), n);
  }

  /** Any other name stands for what it did, unless it was a numbered alias. */
  lemma GetSyncedOther(t: Table, k: Kind, files: Files, name: string)
    requires UniqueKeys(t) && !Taken(k, name, |files|)
    ensures Get(Synced(t, k, files), name) ==
      if Get(t, name).Some? && IsNumbered(k, name, Get(t, name).value) then None else Get(t, name)
  {
    GetUnnumbered(Others(t, k), k, Assigned(t, k, NewestFirst(files)), |files|, name);
    GetFilter(t, (name, a) => !IsNumbered(k, name, a), name);
  }

  lemma SyncedUnique(t: Table, k: Kind, files: Files)
    requires UniqueKeys(t)
    ensures UniqueKeys(Synced(t, k, files))
  {
    FilterUnique(t, (name, a) => !IsNumbered(k, name, a));
    WithNumberedUnique(Others(t, k), k, Assigned(t, k, NewestFirst(files)), |files|);
  }

  predicate IsAlias(t: Table, k: Kind, name: string) {
    Get(t, name).Some? && IsNumbered(k, name, Get(t, name).value)
  }

  /** Exactly provider1 to providerN: a name is a numbered alias of the provider if and only if it is one of them. */
  lemma NumberedExactly(t: Table, k: Kind, files: Files, name: string)
    requires UniqueKeys(t)
    ensures IsAlias(Synced(t, k, files), k, name) <==> Taken(k, name, |files|)
  {
    if Taken(k, name, |files|) {
      var n: nat :| 0 < n <= |files| && name == AliasName(k.provider, n);
      GetSynced(t, k, files, n);
      AliasIndexIs(k.provider, name, n);
    } else {
      GetSyncedOther(t, k, files, name);
    }
  }

  /** A custom alias, or another provider's, is kept exactly when its name is not one of provider1 to providerN. */
  lemma OthersAreKept(t: Table, k: Kind, files: Files, name: string)
    requires UniqueKeys(t) && Get(t, name).Some? && !IsNumbered(k, name, Get(t, name).value)
    ensures Get(Synced(t, k, files), name) == Get(t, name) <==> !Taken(k, name, |files|)
  {
    if Taken(k, name, |files|) {
      var n: nat :| 0 < n <= |files| && name == AliasName(k.provider, n);
      GetSynced(t, k, files, n);
      AliasIndexIs(k.provider, name, n);
    } else {
      GetSyncedOther(t, k, files, name);
    }
  }
}
