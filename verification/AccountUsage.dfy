/** Quota snapshots of one account, as the usage endpoint reports them. */
module AccountUsages {
  import opened Wrappers
  import opened Text

  datatype UsageWindow = UsageWindow(usedPercent: real, windowSeconds: Option<int>, resetsAt: Option<int>) {
    function RemainingPercent(): (r: real)
      ensures 0.0 <= r <= 100.0
    {
      var left := 100.0 - usedPercent;
      if left < 0.0 then 0.0 else if left > 100.0 then 100.0 else left
    }
  }

  datatype AccountUsage = AccountUsage(
    planType: Option<string>,
    primary: Option<UsageWindow>,
    secondary: Option<UsageWindow>,
    creditsBalance: Option<string>,
    creditsUnlimited: bool,
    error: Option<string>)

  function LowerChar(c: char): char {
    if 'A' <= c <= 'Z' then c + 32 as char else c
  }

  predicate StartsFree(name: string) {
    |name| >= 4 && seq(4, i requires 0 <= i < 4 => LowerChar(name[i])) == "free"
  }

  /** A plan whose name, trimmed and lower-cased, starts with "free". */
  predicate IsFreePlan(usage: AccountUsage) {
    usage.planType.Some? && StartsFree(TrimStart(usage.planType.value, Blank))
  }

  /** Which plans are free: nothing but blanks before the word, in letters of either case. */
  lemma FreePlans(usage: AccountUsage)
    ensures IsFreePlan(usage) <==> usage.planType.Some? && exists i: nat :: FreeAt(usage.planType.value, i)
  {
    if usage.planType.Some? {
      TrimmedAt(usage.planType.value);
    }
  }

  predicate FreeAt(name: string, i: nat) {
    && i + 4 <= |name| && (forall j :: 0 <= j < i ==> Blank(name[j]))
    && name[i] in ['f', 'F'] && name[i + 1] in ['r', 'R'] && name[i + 2] in ['e', 'E'] && name[i + 3] in ['e', 'E']
  }

  lemma {:induction false} TrimmedAt(name: string)
    ensures StartsFree(TrimStart(name, Blank)) <==> exists i: nat :: FreeAt(name, i)
  {
    if name != [] && Blank(name[0]) {
      TrimmedAt(name[1..]);
      if i: nat :| FreeAt(name[1..], i) {
        assert FreeAt(name, i + 1);
      }
      if i: nat :| FreeAt(name, i) {
        assert i > 0;
        assert FreeAt(name[1..], i - 1);
      }
    } else {
      StartsFreeIs(name);
      if i: nat :| FreeAt(name, i) {
        assert i == 0;
      }
    }
  }

  lemma StartsFreeIs(name: string)
    ensures StartsFree(name) <==> FreeAt(name, 0)
  {
    if |name| >= 4 {
      var lower := seq(4, i requires 0 <= i < 4 => LowerChar(name[i]));
      assert lower == "free" <==> lower[0] == 'f' && lower[1] == 'r' && lower[2] == 'e' && lower[3] == 'e';
      forall k | 0 <= k < 4 { LowerIs(name[k]); }
    }
  }

  lemma LowerIs(c: char)
    ensures LowerChar(c) == 'f' <==> c in ['f', 'F']
    ensures LowerChar(c) == 'r' <==> c in ['r', 'R']
    ensures LowerChar(c) == 'e' <==> c in ['e', 'E']
  {
  }

  datatype Capacity = Capacity(remaining: real, resetsAt: Option<int>)

  function MinReset(a: Option<int>, b: Option<int>): Option<int> {
    if a.None? then b
    else if b.None? || a.value <= b.value then a
    else b
  }

  /** The usable quota: the scarcer window decides; none for an error, a free plan or an empty window. */
  function UsageCapacity(usage: Option<AccountUsage>): (c: Option<Capacity>)
    ensures c.Some? ==> 0.0 < c.value.remaining <= 100.0
  {
    if usage.None? || usage.value.error.GetOr("") != "" || IsFreePlan(usage.value) then None
    else
      var all := match (usage.value.primary, usage.value.secondary)
        case (None, None) => None
        case (Some(w), None) => Some(Capacity(w.RemainingPercent(), w.resetsAt))
        case (None, Some(w)) => Some(Capacity(w.RemainingPercent(), w.resetsAt))
        case (Some(v), Some(w)) =>
          Some(Capacity(
            if v.RemainingPercent() <= w.RemainingPercent() then v.RemainingPercent() else w.RemainingPercent(),
            MinReset(v.resetsAt, w.resetsAt)));
      if all.Some? && all.value.remaining > 0.0 then all else None
  }

  function Windows(usage: AccountUsage): seq<UsageWindow> {
    (if usage.primary.Some? then [usage.primary.value] else [])
    + (if usage.secondary.Some? then [usage.secondary.value] else [])
  }

  /**
   * Which accounts are refused, and what decides for the others: the window with least left, and the first reset
   * known.
   */
  lemma ScarcestWindowDecides(usage: AccountUsage)
    ensures var c, windows := UsageCapacity(Some(usage)), Windows(usage);
      && (c.Some? <==>
            && usage.error.GetOr("") == "" && !IsFreePlan(usage) && windows != []
            && forall w :: w in windows ==> w.usedPercent < 100.0)
      && (c.Some? ==>
            && (forall w :: w in windows ==> c.value.remaining <= w.RemainingPercent())
            && (exists w :: w in windows && c.value.remaining == w.RemainingPercent())
            && (forall w :: w in windows && w.resetsAt.Some? ==>
                  c.value.resetsAt.Some? && c.value.resetsAt.value <= w.resetsAt.value)
            && (c.value.resetsAt.Some? ==> exists w :: w in windows && c.value.resetsAt == w.resetsAt))
  {
  }
}
