/** `sync_numbered_aliases` as store.py performs it: loops over the alias file and the saved profiles, in place. */
module AliasStores {
  import opened Wrappers
  import opened Dicts
  import opened Aliases

  // ---------------------------------------------------------------- by number

  function NumberOr0(k: Kind, name: string): nat {
    AliasIndex(k.provider, name).GetOr(0)
  }

  function InsertByNumber(k: Kind, sorted: Table, e: (string, Alias)): (r: Table)
    ensures |r| == |sorted| + 1 && multiset(r) == multiset(sorted) + multiset{e}
  {
    if sorted == [] then [e]
    else
      var front, last := sorted[..|sorted| - 1], sorted[|sorted| - 1];
      assert sorted == front + [last];
      if NumberOr0(k, e.0) < NumberOr0(k, last.0) then InsertByNumber(k, front, e) + [last]
      else sorted + [e]
  }

  /** `sorted(aliases.values(), key=...)` */
  function ByNumber(k: Kind, t: Table): (r: Table)
    ensures |r| == |t| && multiset(r) == multiset(t)
  {
    if t == [] then []
    else
      assert t == t[..|t| - 1] + [t[|t| - 1]];
      InsertByNumber(k, ByNumber(k, t[..|t| - 1]), t[|t| - 1])
  }

  predicate Ascending(k: Kind, t: Table) {
    forall i, j :: 0 <= i < j < |t| ==> NumberOr0(k, t[i].0) <= NumberOr0(k, t[j].0)
  }

  lemma {:induction false} InsertAscending(k: Kind, sorted: Table, e: (string, Alias))
    requires Ascending(k, sorted)
    ensures Ascending(k, InsertByNumber(k, sorted, e))
  {
    if sorted != [] {
      var front, last := sorted[..|sorted| - 1], sorted[|sorted| - 1];
      if NumberOr0(k, e.0) < NumberOr0(k, last.0) {
        InsertAscending(k, front, e);
        var r := InsertByNumber(k, front, e);
        forall i | 0 <= i < |r| ensures NumberOr0(k, r[i].0) <= NumberOr0(k, last.0) {
          assert r[i] in multiset(r);
          assert r[i] == e || r[i] in front;
        }
      }
    }
  }

  lemma {:induction false} ByNumberAscending(k: Kind, t: Table)
    ensures Ascending(k, ByNumber(k, t))
  {
    if t != [] {
      ByNumberAscending(k, t[..|t| - 1]);
      InsertAscending(k, ByNumber(k, t[..|t| - 1]), t[|t| - 1]);
    }
  }

  /** The command of a profile can be read off the aliases in any order. */
  lemma CommandByNumber(k: Kind, t: Table, p: string)
    requires UniqueKeys(t)
    ensures CommandOf(ByNumber(k, t), k, p) == CommandOf(t, k, p)
  {
    var u := ByNumber(k, t);
    ReorderedUnique(t, u);
    forall n: nat ensures SameCustom(u, p, t, p, k, n) {
      ReorderedGet(t, u, AliasName(k.provider, n));
    }
    CommandDependsOn(u, p, t, p, k);
  }

  // ---------------------------------------------------------------- collecting the commands

  type Commands = map<string, Command>

  /** What the loop knows of a profile after these aliases. */
  predicate Collected(custom: Commands, seen: Table, k: Kind, p: string) {
    var r := Lowest(seen, k, p);
    if r.Some? then p in custom && custom[p] == r.value.1 else p in custom ==> custom[p] == k.default
  }

  /** One turn of the loop. */
  function Collect(custom: Commands, k: Kind, files: Files, name: string, a: Alias): Commands {
    if AliasIndex(k.provider, name).None? || a.provider != k.provider || !Has(files, a.profile) then custom
    else if a.profile !in custom || (a.command != k.default && custom[a.profile] == k.default)
    then custom[a.profile := a.command]
    else custom
  }

  lemma {:induction false} LowestIsSeen(t: Table, k: Kind, p: string)
    ensures var r := Lowest(t, k, p);
      r.Some? ==> r.value.1 != k.default && exists i :: 0 <= i < |t| && NumberOr0(k, t[i].0) == r.value.0
  {
    if t != [] {
      LowestIsSeen(t[..|t| - 1], k, p);
    }
  }

  lemma CollectNext(custom: Commands, seen: Table, k: Kind, files: Files, e: (string, Alias), p: string)
    requires Collected(custom, seen, k, p) && Has(files, p)
    requires forall i :: 0 <= i < |seen| ==> NumberOr0(k, seen[i].0) <= NumberOr0(k, e.0)
    ensures Collected(Collect(custom, k, files, e.0, e.1), seen + [e], k, p)
  {
    assert (seen + [e])[..|seen|] == seen;
    LowestIsSeen(seen, k, p);
  }

  lemma AssignedNext(t: Table, k: Kind, sorted: seq<Saved>, i: nat)
    requires i < |sorted|
    ensures Assigned(t, k, sorted[..i + 1]) == Assigned(t, k, sorted[..i])
      + [(sorted[i].0, CommandOf(t, k, sorted[i].0))]
  {
  }

  /** The first n aliases by name, in order. */
  function NumberedList(k: Kind, ordered: seq<(string, Command)>, n: nat): (r: Table)
    requires n <= |ordered|
    ensures |r| == n
  {
    if n == 0 then [] else NumberedList(k, ordered, n - 1) + [(AliasName(k.provider, n), Numbered(k, ordered, n))]
  }

  lemma {:induction false} NumberedListAt(k: Kind, ordered: seq<(string, Command)>, n: nat, i: nat)
    requires 0 < i <= n <= |ordered|
    ensures NumberedList(k, ordered, n)[i - 1] == (AliasName(k.provider, i), Numbered(k, ordered, i))
  {
    if i < n {
      NumberedListAt(k, ordered, n - 1, i);
    }
  }

  // ---------------------------------------------------------------- in place

  const AUTOMATIC_PROVIDERS := {"codex", "claude"}

  class AliasStore {
    const k: Kind
    var files: Files
    var table: Table

    constructor (k: Kind)
      ensures this.k == k && files == [] && table == []
    {
      this.k := k;
      files, table := [], [];
    }

    method CollectOne(custom: Commands, name: string, a: Alias) returns (more: Commands)
      ensures more == Collect(custom, k, files, name, a)
    {
      if AliasIndex(k.provider, name).None? || a.provider != k.provider || !Has(files, a.profile) {
        return custom;
      }
      if a.profile !in custom {
        return custom[a.profile := a.command];
      }
      if a.command != k.default && custom[a.profile] == k.default {
        return custom[a.profile := a.command];
      }
      return custom;
    }

    method CollectCommands() returns (custom: Commands)
      requires UniqueKeys(table)
      ensures Agrees(custom)
    {
      custom := map[];
      var sorted := ByNumber(k, table);
      ByNumberAscending(k, table);
      for i := 0 to |sorted|
        invariant forall p :: Has(files, p) ==> Collected(custom, sorted[..i], k, p)
      {
        ghost var before := custom;
        custom := CollectOne(custom, sorted[i].0, sorted[i].1);
        assert sorted[..i + 1] == sorted[..i] + [sorted[i]];
        forall p | Has(files, p) ensures Collected(custom, sorted[..i + 1], k, p) {
          CollectNext(before, sorted[..i], k, files, sorted[i], p);
        }
      }
      assert sorted[..|sorted|] == sorted;
      forall p | Has(files, p) ensures CommandIn(custom, p) == CommandOf(table, k, p) {
        CommandByNumber(k, table, p);
        assert Collected(custom, sorted, k, p);
      }
    }

    lemma SortedIsSaved(i: nat)
      requires i < |NewestFirst(files)|
      ensures Has(files, NewestFirst(files)[i].0)
    {
      assert NewestFirst(files)[i] in multiset(files);
    }

    ghost predicate Agrees(custom: Commands)
      reads this
    {
      forall p :: Has(files, p) ==> CommandIn(custom, p) == CommandOf(table, k, p)
    }

    function CommandIn(custom: Commands, p: string): Command {
      if p in custom then custom[p] else k.default
    }

    method OrderedCommands(custom: Commands) returns (ordered: seq<(string, Command)>)
      requires Agrees(custom)
      ensures ordered == Assigned(table, k, NewestFirst(files))
    {
      ordered := [];
      var sorted := NewestFirst(files);
      for i := 0 to |sorted|
        invariant ordered == Assigned(table, k, sorted[..i])
      {
        SortedIsSaved(i);
        var p := sorted[i].0;
        AssignedNext(table, k, sorted, i);
        ordered := ordered + [(p, CommandIn(custom, p))];
      }
      assert sorted[..|sorted|] == sorted;
    }

    /** provider1, provider2, ... on top of the aliases that stay, and a list of them. */
    method NumberAll(others: Table, ordered: seq<(string, Command)>) returns (updated: Table, made: Table)
      ensures updated == WithNumbered(others, k, ordered, |ordered|)
      ensures made == NumberedList(k, ordered, |ordered|)
    {
      updated, made := others, [];
      for n := 1 to |ordered| + 1
        invariant updated == WithNumbered(others, k, ordered, n - 1)
        invariant made == NumberedList(k, ordered, n - 1)
      {
        var name, a := AliasName(k.provider, n), Alias(k.provider, ordered[n - 1].0, ordered[n - 1].1);
        updated := Put(updated, name, a);
        made := made + [(name, a)];
      }
    }

    /** None when it raises: no alias can be made without a command. */
    method SyncNumberedAliases() returns (automatic: Option<Table>)
      requires UniqueKeys(table)
      modifies this`table
      ensures k.provider !in AUTOMATIC_PROVIDERS ==> automatic == Some([]) && table == old(table)
      ensures k.provider in AUTOMATIC_PROVIDERS && k.default == [] && files != [] ==>
        automatic == None && table == old(table)
      ensures k.provider in AUTOMATIC_PROVIDERS && (k.default != [] || files == []) ==>
        && table == Synced(old(table), k, files)
        && automatic.Some? && |automatic.value| == |files|
        && forall n: nat :: 0 < n <= |files| ==>
             automatic.value[n - 1] == (AliasName(k.provider, n), NthAlias(old(table), k, files, n))
    {
      if k.provider !in AUTOMATIC_PROVIDERS {
        return Some([]);
      }
      if k.default == [] && files != [] {
        return None;
      }
      var custom := CollectCommands();
      var ordered := OrderedCommands(custom);
      var updated, made := NumberAll(Others(table, k), ordered);
      forall n: nat | 0 < n <= |files| ensures made[n - 1] == (AliasName(k.provider, n), NthAlias(table, k, files, n)) {
        NumberedListAt(k, ordered, |ordered|, n);
        AssignedIs(table, k, NewestFirst(files), n);
      }
      table := updated;
      automatic := Some(made);
    }
  }
}
