/** `_finish_aggregate` of pool_server.py: one reply made of the answers of all backends asked. */
module FanOutResults {
  import opened Wrappers
  import opened Dicts

  // ---------------------------------------------------------------- answers

  /** An entry of a result's list: `marker` is the text of its id, or of the whole entry when it has none. */
  datatype Item = Item(marker: string, content: string)

  datatype Value = Items(items: seq<Item>) | Other(text: string)

  type Fields = Dict<string, Value>

  /** A backend's answer: its result if that is an object, and its error if that says something. */
  datatype Answer = Answer(result: Option<Fields>, error: Option<string>)

  datatype Combined = CombinedError(error: string) | CombinedResult(fields: Fields)

  // ---------------------------------------------------------------- merging

  /** One field of one result joins what there is: lists grow, other values stay as first met. */
  function MergeField(combined: Fields, key: string, value: Value): Fields {
    match value
    case Items(items) =>
      var current: Option<Value> := Get(combined, key);
      (match current
       case None => Put(combined, key, Items(items))
       case Some(Items(before)) => Put(combined, key, Items(before + items))
       case Some(Other(_)) => combined)
    case Other(_) => if Has(combined, key) then combined else Put(combined, key, value)
  }

  function MergeResult(combined: Fields, result: Fields): Fields {
    if result == [] then combined
    else
      var (key, value) := result[|result| - 1];
      MergeField(MergeResult(combined, result[..|result| - 1]), key, value)
  }

  function MergeAll(answers: seq<Answer>): Fields {
    if answers == [] then []
    else
      var front, last := MergeAll(answers[..|answers| - 1]), answers[|answers| - 1];
      if last.result.Some? then MergeResult(front, last.result.value) else front
  }

  predicate Marked(items: seq<Item>, marker: string) {
    exists i :: 0 <= i < |items| && items[i].marker == marker
  }

  /** The first entry with each marker, in order. */
  function Unique(items: seq<Item>): (r: seq<Item>) {
    if items == [] then []
    else
      var front, last := items[..|items| - 1], items[|items| - 1];
      if Marked(Unique(front), last.marker) then Unique(front) else Unique(front) + [last]
  }

  function UniqueIn(combined: Fields, key: string): Fields {
    var current: Option<Value> := Get(combined, key);
    match current
    case Some(Items(items)) => Put(combined, key, Items(Unique(items)))
    case _ => combined
  }

  function FirstError(answers: seq<Answer>): Option<string> {
    if answers == [] then None
    else if answers[0].error.Some? then answers[0].error
    else FirstError(answers[1..])
  }

  predicate AnyResult(answers: seq<Answer>) {
    exists i :: 0 <= i < |answers| && answers[i].result.Some?
  }

  function Finish(answers: seq<Answer>): Combined {
    var error := FirstError(answers);
    if error.Some? && !AnyResult(answers) then CombinedError(error.value)
    else CombinedResult(UniqueIn(UniqueIn(MergeAll(answers), "data"), "threads"))
  }

  // ---------------------------------------------------------------- what the reply says

  /** The entries a result has under a key; none when the field is missing or not a list. */
  function ItemsOf(fields: Fields, key: string): seq<Item> {
    var current: Option<Value> := Get(fields, key);
    match current
    case Some(Items(items)) => items
    case _ => []
  }

  /** All answers give lists under this key, or nothing. */
  predicate ListsOnly(answers: seq<Answer>, key: string) {
    forall i :: 0 <= i < |answers| && answers[i].result.Some? ==>
      UniqueKeys(answers[i].result.value)
      && (Has(answers[i].result.value, key) ==> Get(answers[i].result.value, key).value.Items?)
  }

  /** The lists of all answers under this key, put together in order of arrival. */
  function AllItems(answers: seq<Answer>, key: string): seq<Item> {
    if answers == [] then []
    else
      var last := answers[|answers| - 1];
      AllItems(answers[..|answers| - 1], key) + if last.result.Some? then ItemsOf(last.result.value, key) else []
  }

  predicate ListOrNone(fields: Fields, key: string) {
    Has(fields, key) ==> Get(fields, key).value.Items?
  }

  lemma MergeFieldGet(combined: Fields, key: string, value: Value, q: string)
    requires ListOrNone(combined, q)
    ensures q != key ==> Get(MergeField(combined, key, value), q) == Get(combined, q)
    ensures q == key && value.Items? ==>
      Get(MergeField(combined, key, value), q) == Some(Items(ItemsOf(combined, q) + value.items))
  {
    match value
    case Items(items) =>
      assert [] + items == items;
      GetPut(combined, key, Items(items), q);
      if Get(combined, key).Some? && Get(combined, key).value.Items? {
        GetPut(combined, key, Items(Get(combined, key).value.items + items), q);
      }
    case Other(_) => GetPut(combined, key, value, q);
  }

  lemma {:induction false} MergeResultGet(combined: Fields, result: Fields, q: string)
    requires ListOrNone(combined, q) && UniqueKeys(result) && ListOrNone(result, q)
    ensures ListOrNone(MergeResult(combined, result), q)
    ensures ItemsOf(MergeResult(combined, result), q) == ItemsOf(combined, q) + ItemsOf(result, q)
  {
    if result == [] {
      assert ItemsOf(combined, q) + [] == ItemsOf(combined, q);
    } else {
      var front, last := result[..|result| - 1], result[|result| - 1];
      GetFront(result, q);
      if last.0 == q {
        assert Get(front, q).None?;
      }
      MergeResultGet(combined, front, q);
      MergeFieldGet(MergeResult(combined, front), last.0, last.1, q);
      assert last.0 == q ==> ItemsOf(combined, q) + [] == ItemsOf(combined, q);
    }
  }

  lemma {:induction false} MergeAllGet(answers: seq<Answer>, q: string)
    requires ListsOnly(answers, q)
    ensures ListOrNone(MergeAll(answers), q) && ItemsOf(MergeAll(answers), q) == AllItems(answers, q)
  {
    if answers != [] {
      var front, last := answers[..|answers| - 1], answers[|answers| - 1];
      assert forall i :: 0 <= i < |front| ==> front[i] == answers[i];
      MergeAllGet(front, q);
      if last.result.Some? {
        MergeResultGet(MergeAll(front), last.result.value, q);
      } else {
        assert AllItems(front, q) + [] == AllItems(front, q);
      }
    }
  }

  lemma {:induction false} UniqueMarks(items: seq<Item>, m: string)
    ensures Marked(Unique(items), m) <==> Marked(items, m)
  {
    if items != [] {
      var front, last := items[..|items| - 1], items[|items| - 1];
      UniqueMarks(front, m);
      MarkedLonger(front, last, m);
      MarkedLonger(Unique(front), last, m);
      assert front + [last] == items;
    }
  }

  /** The entry is in the list, before any other with its marker. */
  predicate IsFirst(items: seq<Item>, x: Item) {
    exists i :: 0 <= i < |items| && items[i] == x && forall j :: 0 <= j < i ==> items[j].marker != x.marker
  }

  lemma {:induction false} UniqueAreFirsts(items: seq<Item>, x: Item)
    requires x in Unique(items)
    ensures IsFirst(items, x)
  {
    var front, last := items[..|items| - 1], items[|items| - 1];
    if x in Unique(front) {
      UniqueAreFirsts(front, x);
      var i :| 0 <= i < |front| && front[i] == x && forall j :: 0 <= j < i ==> front[j].marker != x.marker;
      assert items[i] == x;
    } else {
      UniqueMarks(front, x.marker);
      assert items[|items| - 1] == x;
      forall j | 0 <= j < |front| ensures items[j].marker != x.marker {
        assert front[j] == items[j];
      }
    }
  }

  lemma {:induction false} UniqueIsDistinct(items: seq<Item>)
    ensures forall i, j :: 0 <= i < j < |Unique(items)| ==> Unique(items)[i].marker != Unique(items)[j].marker
  {
    if items != [] {
      UniqueIsDistinct(items[..|items| - 1]);
    }
  }

  /** Removing repeats keeps one entry of each marker, the first. */
  lemma UniqueKeepsFirsts(items: seq<Item>)
    ensures forall i, j :: 0 <= i < j < |Unique(items)| ==> Unique(items)[i].marker != Unique(items)[j].marker
    ensures forall m :: Marked(Unique(items), m) <==> Marked(items, m)
    ensures forall x :: x in Unique(items) ==> IsFirst(items, x)
  {
    UniqueIsDistinct(items);
    forall m { UniqueMarks(items, m); }
    forall x | x in Unique(items) { UniqueAreFirsts(items, x); }
  }

  lemma MarkedLonger(items: seq<Item>, last: Item, m: string)
    ensures Marked(items + [last], m) <==> Marked(items, m) || last.marker == m
  {
    if Marked(items, m) {
      var i :| 0 <= i < |items| && items[i].marker == m;
      assert (items + [last])[i].marker == m;
    }
    assert (items + [last])[|items|] == last;
  }

  /**
   * The combined list of threads. When some backend has answered with a result, the client gets, under "data" and
   * under "threads", every entry of every answer, each id once, as first reported.
   */
  lemma ThreadsAreMergedOnce(answers: seq<Answer>, key: string, marker: string)
    requires key in {"data", "threads"} && ListsOnly(answers, key) && AnyResult(answers)
    ensures Finish(answers).CombinedResult?
    ensures var items := ItemsOf(Finish(answers).fields, key);
      && items == Unique(AllItems(answers, key))
      && (Marked(items, marker) <==> Marked(AllItems(answers, key), marker))
      && (forall i, j :: 0 <= i < j < |items| ==> items[i].marker != items[j].marker)
  {
    var merged := MergeAll(answers);
    MergeAllGet(answers, key);
    UniqueKeepsFirsts(AllItems(answers, key));
    UniqueInGet(merged, "data", key);
    UniqueInGet(UniqueIn(merged, "data"), "threads", key);
  }

  lemma UniqueInGet(fields: Fields, k: string, q: string)
    requires ListOrNone(fields, q)
    ensures ListOrNone(UniqueIn(fields, k), q)
    ensures ItemsOf(UniqueIn(fields, k), q) == if q == k then Unique(ItemsOf(fields, q)) else ItemsOf(fields, q)
  {
    if Get(fields, k).Some? && Get(fields, k).value.Items? {
      GetPut(fields, k, Items(Unique(Get(fields, k).value.items)), q);
    }
  }

  /** The client gets an error exactly when some backend reports one and none gives a result. */
  lemma ErrorOnlyWithoutResults(answers: seq<Answer>)
    ensures Finish(answers).CombinedError? <==>
      (exists i :: 0 <= i < |answers| && answers[i].error.Some?) && !AnyResult(answers)
  {
    ErrorIsFirst(answers);
  }

  lemma {:induction false} ErrorIsFirst(answers: seq<Answer>)
    ensures FirstError(answers).Some? <==> exists i :: 0 <= i < |answers| && answers[i].error.Some?
  {
    if answers != [] && answers[0].error.None? {
      ErrorIsFirst(answers[1..]);
      if i :| 0 <= i < |answers| && answers[i].error.Some? {
        assert answers[1..][i - 1].error.Some?;
      }
      if i :| 0 <= i < |answers[1..]| && answers[1..][i].error.Some? {
        assert answers[i + 1].error.Some?;
      }
    }
  }

  /** The error the client gets is the first one reported. */
  lemma {:induction false} ErrorIsReported(answers: seq<Answer>) returns (i: nat)
    requires Finish(answers).CombinedError?
    ensures i < |answers| && answers[i].error == Some(Finish(answers).error)
    ensures forall j :: 0 <= j < i ==> answers[j].error.None?
  {
    i := FirstErrorAt(answers);
  }

  lemma {:induction false} FirstErrorAt(answers: seq<Answer>) returns (i: nat)
    requires FirstError(answers).Some?
    ensures i < |answers| && answers[i].error == FirstError(answers)
    ensures forall j :: 0 <= j < i ==> answers[j].error.None?
  {
    if answers[0].error.Some? {
      i := 0;
    } else {
      i := FirstErrorAt(answers[1..]);
      i := i + 1;
      assert forall j :: 0 < j < i ==> answers[j] == answers[1..][j - 1];
    }
  }

  /** Where the entries that are kept have stood. */
  predicate Stood(items: seq<Item>, kept: seq<Item>, at: seq<nat>) {
    && |at| == |kept|
    && (forall i :: 0 <= i < |at| ==> at[i] < |items| && items[at[i]] == kept[i])
    && (forall i, j :: 0 <= i < j < |at| ==> at[i] < at[j])
  }

  lemma StoodLonger(items: seq<Item>, front: seq<Item>, kept: seq<Item>, at: seq<nat>)
    requires items != [] && front == items[..|items| - 1] && Stood(front, kept, at)
    ensures Stood(items, kept, at) && Stood(items, kept + [items[|items| - 1]], at + [|items| - 1])
  {
  }

  /** The entries that are kept stay in order. */
  lemma {:induction false} UniqueKeepsOrder(items: seq<Item>) returns (at: seq<nat>)
    ensures Stood(items, Unique(items), at)
  {
    if items == [] {
      at := [];
    } else {
      var k := |items| - 1;
      var front := items[..k];
      at := UniqueKeepsOrder(front);
      StoodLonger(items, front, Unique(front), at);
      if !Marked(Unique(front), items[k].marker) {
        at := at + [k];
      }
    }
  }

  // ---------------------------------------------------------------- fields of any kind

  /** A result is an object: it has each field once. */
  predicate Objects(answers: seq<Answer>) {
    forall i :: 0 <= i < |answers| && answers[i].result.Some? ==> UniqueKeys(answers[i].result.value)
  }

  /** The field as the first answer that has it gives it. */
  function FirstField(answers: seq<Answer>, q: string): Option<Value> {
    if answers == [] then None
    else
      var before, last := FirstField(answers[..|answers| - 1], q), answers[|answers| - 1];
      if before.Some? || last.result.None? then before else Get(last.result.value, q)
  }

  /** What is known of a field, joined by what one more result says of it. */
  function Joined(before: Option<Value>, more: Option<Value>): Option<Value> {
    if before.None? then more
    else if before.value.Items? && more.Some? && more.value.Items? then
      Some(Items(before.value.items + more.value.items))
    else before
  }

  lemma MergeFieldJoins(combined: Fields, key: string, value: Value, q: string)
    ensures Get(MergeField(combined, key, value), q)
      == if q == key then Joined(Get(combined, q), Some(value)) else Get(combined, q)
  {
    GetPut(combined, key, value, q);
    if Get(combined, key).Some? && Get(combined, key).value.Items? && value.Items? {
      GetPut(combined, key, Items(Get(combined, key).value.items + value.items), q);
    }
  }

  lemma {:induction false} MergeResultJoins(combined: Fields, result: Fields, q: string)
    requires UniqueKeys(result)
    ensures Get(MergeResult(combined, result), q) == Joined(Get(combined, q), Get(result, q))
  {
    if result != [] {
      var front, last := result[..|result| - 1], result[|result| - 1];
      GetFront(result, q);
      MergeResultJoins(combined, front, q);
      MergeFieldJoins(MergeResult(combined, front), last.0, last.1, q);
    }
  }

  /** The field of all results together: as first met; but a list goes on with the lists of later answers. */
  function Met(answers: seq<Answer>, q: string): Option<Value> {
    var first := FirstField(answers, q);
    if first.Some? && first.value.Items? then Some(Items(AllItems(answers, q))) else first
  }

  lemma {:induction false} NoItemsBefore(answers: seq<Answer>, q: string)
    requires FirstField(answers, q).None?
    ensures AllItems(answers, q) == []
  {
    if answers != [] {
      NoItemsBefore(answers[..|answers| - 1], q);
    }
  }

  lemma {:induction false} MergeAllJoins(answers: seq<Answer>, q: string)
    requires Objects(answers)
    ensures Get(MergeAll(answers), q) == Met(answers, q)
  {
    if answers != [] {
      var front, last := answers[..|answers| - 1], answers[|answers| - 1];
      assert forall i :: 0 <= i < |front| ==> front[i] == answers[i];
      MergeAllJoins(front, q);
      if FirstField(front, q).None? {
        NoItemsBefore(front, q);
      }
      if last.result.Some? {
        MergeResultJoins(MergeAll(front), last.result.value, q);
        if Get(last.result.value, q).Some? && Get(last.result.value, q).value.Items? {
          assert [] + Get(last.result.value, q).value.items == Get(last.result.value, q).value.items;
        }
      }
      assert AllItems(front, q) + [] == AllItems(front, q);
    }
  }

  lemma UniqueInKeeps(fields: Fields, k: string, q: string)
    ensures Get(UniqueIn(fields, k), q)
      == if q == k && Get(fields, q).Some? && Get(fields, q).value.Items?
         then Some(Items(Unique(Get(fields, q).value.items))) else Get(fields, q)
  {
    if Get(fields, k).Some? && Get(fields, k).value.Items? {
      GetPut(fields, k, Items(Unique(Get(fields, k).value.items)), q);
    }
  }

  /**
   * Every field of the combined reply, for answers of any kind: a field is there if some answer has it, and is what
   * the first of these says; a list goes on with those of later answers, and repeats are removed under two keys only.
   */
  lemma FieldsAreMerged(answers: seq<Answer>, q: string)
    requires Objects(answers) && Finish(answers).CombinedResult?
    ensures var met := Met(answers, q);
      Get(Finish(answers).fields, q)
      == if met.Some? && met.value.Items? && q in ["data", "threads"] then Some(Items(Unique(met.value.items))) else met
  {
    MergeAllJoins(answers, q);
    UniqueInKeeps(MergeAll(answers), "data", q);
    UniqueInKeeps(UniqueIn(MergeAll(answers), "data"), "threads", q);
  }

  // ---------------------------------------------------------------- the loops

  method WithoutRepeats(items: seq<Item>) returns (unique: seq<Item>)
    ensures unique == Unique(items)
  {
    var seen: set<string> := {};
    unique := [];
    for i := 0 to |items|
      invariant unique == Unique(items[..i])
      invariant forall m :: m in seen <==> Marked(unique, m)
    {
      assert items[..i + 1][..i] == items[..i];
      var item := items[i];
      if item.marker in seen {
        continue;
      }
      seen := seen + {item.marker};
      forall m ensures Marked(unique + [item], m) <==> Marked(unique, m) || item.marker == m {
        MarkedLonger(unique, item, m);
      }
      unique := unique + [item];
    }
    assert items[..|items|] == items;
  }

  method MergeResults(answers: seq<Answer>) returns (combined: Fields)
    ensures combined == MergeAll(answers)
  {
    combined := [];
    for i := 0 to |answers|
      invariant combined == MergeAll(answers[..i])
    {
      assert answers[..i + 1][..i] == answers[..i];
      if answers[i].result.None? {
        continue;
      }
      var result := answers[i].result.value;
      ghost var before := combined;
      for j := 0 to |result|
        invariant combined == MergeResult(before, result[..j])
      {
        assert result[..j + 1][..j] == result[..j];
        combined := MergeField(combined, result[j].0, result[j].1);
      }
      assert result[..|result|] == result;
    }
    assert answers[..|answers|] == answers;
  }

  method FinishAggregate(answers: seq<Answer>) returns (reply: Combined)
    ensures reply == Finish(answers)
  {
    var combined := MergeResults(answers);
    var data := Get(combined, "data");
    if data.Some? && data.value.Items? {
      var unique := WithoutRepeats(data.value.items);
      combined := Put(combined, "data", Items(unique));
    }
    var threads := Get(combined, "threads");
    if threads.Some? && threads.value.Items? {
      var unique := WithoutRepeats(threads.value.items);
      combined := Put(combined, "threads", Items(unique));
    }
    var error := FirstError(answers);
    if error.Some? && !AnyResult(answers) {
      return CombinedError(error.value);
    }
    return CombinedResult(combined);
  }
}
