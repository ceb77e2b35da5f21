/**
 * How desktop.py looks at the desktop application: a search of its bundle chunk by chunk, and a walk from each
 * process to its ancestors.
 */
module ProcessTree {
  import opened Wrappers

  // ---------------------------------------------------------------- searching in chunks

  ghost predicate At<T>(hay: seq<T>, needle: seq<T>, i: nat) {
    i + |needle| <= |hay| && hay[i..i + |needle|] == needle
  }

  ghost predicate Occurs<T>(hay: seq<T>, needle: seq<T>) {
    exists i: nat :: At(hay, needle, i)
  }

  function Joined<T>(chunks: seq<seq<T>>): seq<T> {
    if chunks == [] then [] else Joined(chunks[..|chunks| - 1]) + chunks[|chunks| - 1]
  }

  /** `needle in content` */
  method Contains<T(==)>(content: seq<T>, needle: seq<T>) returns (found: bool)
    ensures found <==> Occurs(content, needle)
  {
    var i: nat := 0;
    while i + |needle| <= |content|
      invariant forall k: nat :: k < i ==> !At(content, needle, k)
    {
      if content[i..i + |needle|] == needle {
        assert At(content, needle, i);
        return true;
      }
      i := i + 1;
    }
    return false;
  }

  /** The end of the content that is carried over to the next chunk. */
  function Tail<T>(content: seq<T>, n: nat): seq<T> {
    if n <= |content| then content[|content| - n..] else content
  }

  lemma OccursShifted<T>(front: seq<T>, back: seq<T>, needle: seq<T>, i: nat)
    ensures At(back, needle, i) <==> At(front + back, needle, |front| + i)
  {
    if i + |needle| <= |back| {
      var n := |front|;
      assert (front + back)[n + i..n + i + |needle|] == back[i..i + |needle|];
    }
  }

  lemma OccursEarly<T>(front: seq<T>, back: seq<T>, needle: seq<T>, i: nat)
    requires i + |needle| <= |front|
    ensures At(front, needle, i) <==> At(front + back, needle, i)
  {
    assert (front + back)[i..i + |needle|] == front[i..i + |needle|];
  }

  /** A needle that is not in what was read before is found, if at all, in the carried end and the new chunk. */
  lemma OverlapSuffices<T>(before: seq<T>, chunk: seq<T>, needle: seq<T>)
    requires !Occurs(before, needle)
    ensures Occurs(Tail(before, |needle|) + chunk, needle) <==> Occurs(before + chunk, needle)
  {
    var tail := Tail(before, |needle|);
    var front := before[..|before| - |tail|];
    assert before + chunk == front + (tail + chunk);
    if Occurs(tail + chunk, needle) {
      var i: nat :| At(tail + chunk, needle, i);
      OccursShifted(front, tail + chunk, needle, i);
    }
    if Occurs(before + chunk, needle) {
      var i: nat :| At(before + chunk, needle, i);
      if i + |needle| <= |before| {
        OccursEarly(before, chunk, needle, i);
      } else {
        OccursShifted(front, tail + chunk, needle, i - |front|);
      }
    }
  }

  lemma TailOfTail<T>(before: seq<T>, chunk: seq<T>, n: nat)
    ensures Tail(Tail(before, n) + chunk, n) == Tail(before + chunk, n)
  {
  }

  /** The loop of `desktop_daemon_supported`: true exactly when the needle is in the whole file. */
  method FoundInChunks<T(==)>(chunks: seq<seq<T>>, needle: seq<T>) returns (found: bool)
    requires needle != []
    ensures found <==> Occurs(Joined(chunks), needle)
  {
    var overlap := [];
    for i := 0 to |chunks|
      invariant overlap == Tail(Joined(chunks[..i]), |needle|)
      invariant !Occurs(Joined(chunks[..i]), needle)
    {
      assert chunks[..i + 1][..i] == chunks[..i];
      ghost var before := Joined(chunks[..i]);
      var content := overlap + chunks[i];
      OverlapSuffices(before, chunks[i], needle);
      var here := Contains(content, needle);
      if here {
        OccursInMore(chunks, i + 1, needle);
        return true;
      }
      TailOfTail(before, chunks[i], |needle|);
      overlap := Tail(content, |needle|);
    }
    assert chunks[..|chunks|] == chunks;
    return false;
  }

  lemma {:induction false} OccursInMore<T>(chunks: seq<seq<T>>, n: nat, needle: seq<T>)
    requires n <= |chunks| && Occurs(Joined(chunks[..n]), needle)
    ensures Occurs(Joined(chunks), needle)
  {
    if n == |chunks| {
      assert chunks[..n] == chunks;
    } else {
      var front := chunks[..|chunks| - 1];
      assert front[..n] == chunks[..n];
      OccursInMore(front, n, needle);
      var i: nat :| At(Joined(front), needle, i);
      OccursEarly(Joined(front), chunks[|chunks| - 1], needle, i);
    }
  }

  // ---------------------------------------------------------------- ancestors

  datatype Process = Process(parent: int, command: string)

  type Table = map<int, Process>

  /** The k-th ancestor of a process, following parents of listed processes. */
  function Ancestor(ps: Table, pid: int, k: nat): Option<int> {
    if k == 0 then Some(pid)
    else
      var below := Ancestor(ps, pid, k - 1);
      if below.Some? && below.value in ps then Some(ps[below.value].parent) else None
  }

  /** Following parent links one or more times leads to one of the given processes. */
  ghost predicate Descends(ps: Table, apps: set<int>, pid: int) {
    exists k: nat :: IsAncestorIn(ps, apps, pid, k)
  }

  predicate IsAncestorIn(ps: Table, apps: set<int>, pid: int, k: nat) {
    k > 0 && Ancestor(ps, pid, k).Some? && Ancestor(ps, pid, k).value in apps
  }

  /** Once the walk leaves the table it does not come back. */
  lemma {:induction false} NoAncestorBeyond(ps: Table, pid: int, j: nat, k: nat)
    requires j < k && (Ancestor(ps, pid, j).Some? ==> Ancestor(ps, pid, j).value !in ps)
    ensures Ancestor(ps, pid, k).None?
  {
    if k > j + 1 {
      NoAncestorBeyond(ps, pid, j, k - 1);
    }
  }

  /** A walk that meets a process again goes round: everything beyond was met before. */
  lemma {:induction false} AncestorsRepeat(ps: Table, pid: int, i: nat, j: nat, k: nat)
    requires i < j <= k && Ancestor(ps, pid, i) == Ancestor(ps, pid, j)
    ensures Ancestor(ps, pid, k) == Ancestor(ps, pid, k - (j - i))
  {
    if k > j {
      AncestorsRepeat(ps, pid, i, j, k - 1);
    }
  }

  lemma {:induction false} NoneOnTheLoop(ps: Table, apps: set<int>, pid: int, i: nat, j: nat, k: nat)
    requires i < j && Ancestor(ps, pid, i) == Ancestor(ps, pid, j)
    requires forall m: nat :: m <= j ==> !IsAncestorIn(ps, apps, pid, m)
    ensures !IsAncestorIn(ps, apps, pid, k)
    decreases k
  {
    if k > j {
      AncestorsRepeat(ps, pid, i, j, k);
      NoneOnTheLoop(ps, apps, pid, i, j, k - (j - i));
    }
  }

  /** `belongs_to_app`: it ends on every table, cycles of parents included, and answers whether an app is above. */
  method BelongsToApp(ps: Table, apps: set<int>, pid: int) returns (belongs: bool)
    ensures belongs <==> Descends(ps, apps, pid)
  {
    var seen: set<int> := {};
    var current := pid;
    ghost var j: nat := 0;
    while current in ps && current !in seen
      invariant Ancestor(ps, pid, j) == Some(current)
      invariant seen <= ps.Keys
      invariant forall p :: p in seen ==> exists i: nat :: i < j && Ancestor(ps, pid, i) == Some(p)
      invariant forall m: nat :: m <= j ==> !IsAncestorIn(ps, apps, pid, m)
      decreases ps.Keys - seen
    {
      seen := seen + {current};
      var parent := ps[current].parent;
      assert Ancestor(ps, pid, j + 1) == Some(parent);
      if parent in apps {
        assert IsAncestorIn(ps, apps, pid, j + 1);
        return true;
      }
      current := parent;
      j := j + 1;
    }
    if current !in ps {
      forall k: nat ensures !IsAncestorIn(ps, apps, pid, k) {
        if k > j {
          NoAncestorBeyond(ps, pid, j, k);
        }
      }
    } else {
      ghost var i: nat :| i < j && Ancestor(ps, pid, i) == Some(current);
      forall k: nat ensures !IsAncestorIn(ps, apps, pid, k) {
        NoneOnTheLoop(ps, apps, pid, i, j, k);
      }
    }
    return false;
  }

  // ---------------------------------------------------------------- the mode of the application

  datatype Mode = Stopped | Unmanaged | Managed | Transition

  datatype ProcessState = ProcessState(mode: Mode, apps: set<int>, servers: set<int>)

  /** The table of a listing; a later line about the same process replaces an earlier one. */
  function TableOf(rows: seq<(int, Process)>): Table {
    if rows == [] then map[] else TableOf(rows[..|rows| - 1])[rows[|rows| - 1].0 := rows[|rows| - 1].1]
  }

  /** Row i is the last one about its process. */
  predicate LastOf(rows: seq<(int, Process)>, pid: int, i: nat) {
    i < |rows| && rows[i].0 == pid && forall j :: i < j < |rows| ==> rows[j].0 != pid
  }

  /** The table has every process that is listed, as its last row says. */
  lemma {:induction false} TableIs(rows: seq<(int, Process)>, pid: int)
    ensures pid in TableOf(rows) <==> exists i: nat :: LastOf(rows, pid, i)
    ensures forall i: nat :: LastOf(rows, pid, i) ==> pid in TableOf(rows) && TableOf(rows)[pid] == rows[i].1
  {
    if rows != [] {
      var front, k := rows[..|rows| - 1], |rows| - 1;
      TableIs(front, pid);
      if rows[k].0 == pid {
        assert LastOf(rows, pid, k);
      } else {
        assert forall i: nat :: LastOf(rows, pid, i) <==> LastOf(front, pid, i);
      }
    }
  }

  ghost predicate IsApp(command: string) {
    Occurs(command, "/ChatGPT") && !Occurs(command, "--type=")
  }

  ghost function Apps(ps: Table): set<int> {
    set pid | pid in ps && IsApp(ps[pid].command)
  }

  /** An app-server started, directly or not, by the application. */
  ghost predicate IsServer(ps: Table, pid: int) {
    pid in ps && !IsApp(ps[pid].command) && Occurs(ps[pid].command, "app-server") && Descends(ps, Apps(ps), pid)
  }

  ghost predicate IsProxied(ps: Table, pid: int)
    requires pid in ps
  {
    Occurs(ps[pid].command, "app-server proxy")
  }

  ghost predicate PrivateServer(ps: Table, pid: int) {
    IsServer(ps, pid) && !IsProxied(ps, pid)
  }

  /** The mode by definition: one private app-server is enough to make the application unmanaged. */
  ghost function ModeOf(ps: Table): Mode {
    if Apps(ps) == {} then Stopped
    else if exists pid :: PrivateServer(ps, pid) then Unmanaged
    else if exists pid :: IsServer(ps, pid) then Managed
    else Transition
  }

  /** A process of the application: its command names it, and is not one of its helpers. */
  ghost predicate Application(ps: Table, pid: int) {
    && pid in ps && Occurs(ps[pid].command, "/ChatGPT") && !Occurs(ps[pid].command, "--type=")
  }

  /** A server below a process of the application, and not such a process itself. */
  ghost predicate Serving(ps: Table, pid: int) {
    && pid in ps && Occurs(ps[pid].command, "app-server") && !Application(ps, pid)
    && exists k: nat, app: int :: k > 0 && Ancestor(ps, pid, k) == Some(app) && Application(ps, app)
  }

  /** Which servers there are decides the mode; a proxied one counts only if there is no other. */
  lemma ModesAre(ps: Table)
    ensures ModeOf(ps) == Stopped <==> forall pid :: !Application(ps, pid)
    ensures ModeOf(ps) == Unmanaged <==>
      exists pid :: Serving(ps, pid) && !Occurs(ps[pid].command, "app-server proxy")
    ensures ModeOf(ps) == Managed <==>
      (exists pid :: Serving(ps, pid)) && forall pid :: Serving(ps, pid) ==> Occurs(ps[pid].command, "app-server proxy")
  {
    forall pid ensures Serving(ps, pid) <==> IsServer(ps, pid) {
      ServingIs(ps, pid);
    }
    assert forall pid :: PrivateServer(ps, pid) <==> Serving(ps, pid) && !Occurs(ps[pid].command, "app-server proxy");
    assert forall pid :: Application(ps, pid) <==> pid in Apps(ps);
    EmptyOrMember(Apps(ps));
    if pid :| Serving(ps, pid) {
      var k: nat, app: int :| k > 0 && Ancestor(ps, pid, k) == Some(app) && Application(ps, app);
      assert app in Apps(ps);
    }
  }

  lemma ServingIs(ps: Table, pid: int)
    ensures Serving(ps, pid) <==> IsServer(ps, pid)
  {
    if Serving(ps, pid) {
      var k: nat, app: int :| k > 0 && Ancestor(ps, pid, k) == Some(app) && Application(ps, app);
      assert IsAncestorIn(ps, Apps(ps), pid, k);
    }
    if IsServer(ps, pid) {
      var k: nat :| IsAncestorIn(ps, Apps(ps), pid, k);
      var app := Ancestor(ps, pid, k).value;
      assert Ancestor(ps, pid, k) == Some(app) && Application(ps, app);
    }
  }

  lemma EmptyOrMember(pids: set<int>)
    ensures pids == {} || exists pid: int :: pid in pids
  {
    assert (forall pid: int :: pid !in pids) ==> pids == {};
  }

  method PickFrom(pids: set<int>) returns (pid: int)
    requires |pids| > 0
    ensures pid in pids
  {
    EmptyOrMember(pids);
    pid :| pid in pids;
  }

  method FindApps(ps: Table) returns (apps: set<int>)
    ensures apps == Apps(ps)
  {
    apps := {};
    var left := ps.Keys;
    while |left| > 0
      invariant left <= ps.Keys
      invariant apps == set pid | pid in ps && pid !in left && IsApp(ps[pid].command)
    {
      var pid := PickFrom(left);
      left := left - {pid};
      var named := Contains(ps[pid].command, "/ChatGPT");
      var typed := Contains(ps[pid].command, "--type=");
      if named && !typed {
        apps := apps + {pid};
      }
    }
  }

  method ParseProcesses(rows: seq<(int, Process)>) returns (state: ProcessState)
    ensures var ps := TableOf(rows);
      && state.mode == ModeOf(ps) && state.apps == Apps(ps)
      && (state.mode == Unmanaged ==> forall pid :: pid in state.servers <==> PrivateServer(ps, pid))
      && (state.mode == Managed ==> forall pid :: pid in state.servers <==> IsServer(ps, pid))
  {
    var ps: Table := map[];
    for i := 0 to |rows|
      invariant ps == TableOf(rows[..i])
    {
      assert rows[..i + 1][..i] == rows[..i];
      ps := ps[rows[i].0 := rows[i].1];
    }
    assert rows[..|rows|] == rows;
    var apps := FindApps(ps);
    if apps == {} {
      return ProcessState(Stopped, {}, {});
    }
    var managed, unmanaged: set<int> := {}, {};
    var left := ps.Keys;
    while |left| > 0
      invariant left <= ps.Keys
      invariant forall pid :: pid in unmanaged <==> pid !in left && PrivateServer(ps, pid)
      invariant forall pid :: pid in managed <==> pid !in left && IsServer(ps, pid) && !PrivateServer(ps, pid)
    {
      var pid := PickFrom(left);
      left := left - {pid};
      var serving := Contains(ps[pid].command, "app-server");
      var belongs := BelongsToApp(ps, apps, pid);
      if pid in apps || !serving || !belongs {
        continue;
      }
      var proxied := Contains(ps[pid].command, "app-server proxy");
      if proxied {
        managed := managed + {pid};
      } else {
        unmanaged := unmanaged + {pid};
      }
    }
    if |unmanaged| > 0 {
      var pid := PickFrom(unmanaged);
      assert PrivateServer(ps, pid);
      return ProcessState(Unmanaged, apps, unmanaged);
    }
    if |managed| > 0 {
      var pid := PickFrom(managed);
      assert IsServer(ps, pid);
      return ProcessState(Managed, apps, managed);
    }
    return ProcessState(Transition, apps, {});
  }
}
