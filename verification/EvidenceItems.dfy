/** Choosing among evidence items: a stable priority order, greedy removal of duplicates, and
    a greedy fit into a token budget. */
module EvidenceItems {
  import opened WebEvidence

  datatype Kind = WebFetch | Knowledge | WebSearch

  function Priority(k: Kind): nat {
    match k case WebFetch => 0 case Knowledge => 1 case WebSearch => 2
  }

  datatype Item = Item(ref: string, kind: Kind, content: string, title: string, source: string, url: string, tokens: nat, truncated: bool)

  // ---------------------------------------------------------------------------
  // The sort key (priority, source_ref, evidence_ref).

  predicate StringLe(a: string, b: string) {
    a == "" || (b != "" && (a[0] < b[0] || (a[0] == b[0] && StringLe(a[1..], b[1..]))))
  }

  predicate KeyLe(x: Item, y: Item) {
    || Priority(x.kind) < Priority(y.kind)
    || (x.kind == y.kind && x.source != y.source && StringLe(x.source, y.source))
    || (x.kind == y.kind && x.source == y.source && StringLe(x.ref, y.ref))
  }

  predicate SameKey(x: Item, y: Item) { x.kind == y.kind && x.source == y.source && x.ref == y.ref }

  lemma {:induction false} StringLeTotal(a: string, b: string)
    ensures StringLe(a, b) || StringLe(b, a)
    ensures StringLe(a, b) && StringLe(b, a) ==> a == b
    decreases |a|
  {
    if a != "" && b != "" && a[0] == b[0] {
      StringLeTotal(a[1..], b[1..]);
      if a[1..] == b[1..] { assert a == [a[0]] + a[1..] && b == [b[0]] + b[1..]; }
    }
  }

  lemma {:induction false} StringLeTrans(a: string, b: string, c: string)
    requires StringLe(a, b) && StringLe(b, c)
    ensures StringLe(a, c)
    decreases |a|
  {
    if a != "" && a[0] == b[0] == c[0] { StringLeTrans(a[1..], b[1..], c[1..]); }
  }

  lemma KeyLeTotal(x: Item, y: Item)
    ensures KeyLe(x, y) || KeyLe(y, x)
    ensures KeyLe(x, y) && KeyLe(y, x) ==> SameKey(x, y)
    ensures SameKey(x, y) ==> KeyLe(x, y)
  {
    StringLeTotal(x.source, y.source);
    StringLeTotal(x.ref, y.ref);
  }

  lemma KeyLeTrans(x: Item, y: Item, z: Item)
    requires KeyLe(x, y) && KeyLe(y, z)
    ensures KeyLe(x, z)
  {
    if x.kind == y.kind == z.kind {
      if x.source != y.source && y.source != z.source {
        StringLeTrans(x.source, y.source, z.source);
        if x.source == z.source { StringLeTotal(x.source, y.source); }
      } else if x.source == y.source == z.source {
        StringLeTrans(x.ref, y.ref, z.ref);
      }
    }
  }

  // ---------------------------------------------------------------------------
  // `sorted(items, key=...)`

  function Insert(s: seq<Item>, x: Item): seq<Item> {
    if s == [] || KeyLe(s[|s| - 1], x) then s + [x] else Insert(s[..|s| - 1], x) + [s[|s| - 1]]
  }

  function Sort(items: seq<Item>): seq<Item> {
    if items == [] then [] else Insert(Sort(items[..|items| - 1]), items[|items| - 1])
  }

  ghost predicate Sorted(s: seq<Item>) {
    forall i, j :: 0 <= i < j < |s| ==> KeyLe(s[i], s[j])
  }

  function WithKey(s: seq<Item>, k: Item): seq<Item> {
    if s == [] then [] else WithKey(s[..|s| - 1], k) + IfSame(s[|s| - 1], k)
  }

  function IfSame(x: Item, k: Item): seq<Item> { if SameKey(x, k) then [x] else [] }

  lemma {:induction false} InsertPermutes(s: seq<Item>, x: Item)
    ensures multiset(Insert(s, x)) == multiset(s) + multiset{x}
    decreases |s|
  {
    if s != [] && !KeyLe(s[|s| - 1], x) {
      InsertPermutes(s[..|s| - 1], x);
      assert s == s[..|s| - 1] + [s[|s| - 1]];
    }
  }

  /** Appending an upper bound keeps a sequence sorted. */
  lemma SortedSnoc(t: seq<Item>, x: Item)
    requires Sorted(t) && forall y :: y in t ==> KeyLe(y, x)
    ensures Sorted(t + [x])
  {
  }

  lemma SortedBound(s: seq<Item>, x: Item)
    requires Sorted(s) && s != [] && KeyLe(s[|s| - 1], x)
    ensures forall y :: y in s ==> KeyLe(y, x)
  {
    forall i | 0 <= i < |s| ensures KeyLe(s[i], x) {
      if i < |s| - 1 { KeyLeTrans(s[i], s[|s| - 1], x); }
    }
  }

  lemma {:induction false} InsertSorts(s: seq<Item>, x: Item)
    requires Sorted(s)
    ensures Sorted(Insert(s, x))
    decreases |s|
  {
    if s == [] {
    } else if KeyLe(s[|s| - 1], x) {
      SortedBound(s, x);
      SortedSnoc(s, x);
    } else {
      var init, last := s[..|s| - 1], s[|s| - 1];
      InsertSorts(init, x);
      InsertPermutes(init, x);
      KeyLeTotal(x, last);
      forall y | y in Insert(init, x) ensures KeyLe(y, last) {
        assert y in multiset(Insert(init, x));
        if y in init {
          var i :| 0 <= i < |init| && init[i] == y;
          assert s[i] == y;
        }
      }
      SortedSnoc(Insert(init, x), last);
    }
  }

  lemma WithKeySnoc(s: seq<Item>, x: Item, k: Item)
    ensures WithKey(s + [x], k) == WithKey(s, k) + IfSame(x, k)
  {
    assert (s + [x])[..|s|] == s;
  }

  lemma {:induction false} InsertKeepsOrder(s: seq<Item>, x: Item, k: Item)
    ensures WithKey(Insert(s, x), k) == WithKey(s + [x], k)
    decreases |s|
  {
    if s != [] && !KeyLe(s[|s| - 1], x) {
      var init, last := s[..|s| - 1], s[|s| - 1];
      InsertKeepsOrder(init, x, k);
      WithKeySnoc(Insert(init, x), last, k);
      WithKeySnoc(init, x, k);
      WithKeySnoc(s, x, k);
      KeyLeTotal(last, x);
      Exchange(WithKey(init, k), x, last, k);
    }
  }

  /** Items with different keys are not both picked. */
  lemma Exchange(s: seq<Item>, x: Item, y: Item, k: Item)
    requires !SameKey(x, y)
    ensures s + IfSame(x, k) + IfSame(y, k) == s + IfSame(y, k) + IfSame(x, k)
  {
  }

  lemma {:induction false} SortSorts(items: seq<Item>)
    ensures Sorted(Sort(items)) && multiset(Sort(items)) == multiset(items)
    decreases |items|
  {
    if items != [] {
      var init, last := items[..|items| - 1], items[|items| - 1];
      SortSorts(init);
      InsertSorts(Sort(init), last);
      InsertPermutes(Sort(init), last);
      assert items == init + [last];
    }
  }

  lemma {:induction false} SortKeepsOrder(items: seq<Item>, k: Item)
    ensures WithKey(Sort(items), k) == WithKey(items, k)
    decreases |items|
  {
    if items != [] {
      var init, last := items[..|items| - 1], items[|items| - 1];
      SortKeepsOrder(init, k);
      InsertKeepsOrder(Sort(init), last, k);
      WithKeySnoc(Sort(init), last, k);
    }
  }

  /** `sorted` puts the items in key order and keeps the given order among equal keys. */
  lemma SortIsStable(items: seq<Item>, k: Item)
    ensures Sorted(Sort(items)) && multiset(Sort(items)) == multiset(items)
    ensures WithKey(Sort(items), k) == WithKey(items, k)
  {
    SortSorts(items);
    SortKeepsOrder(items, k);
  }

  // ---------------------------------------------------------------------------
  // Duplicates.

  /** Same evidence, or same known source. */
  predicate Clash(x: Item, y: Item) {
    x.ref == y.ref || (x.source != "" && x.source == y.source)
  }

  predicate ClashesAny(kept: seq<Item>, x: Item) {
    exists i :: 0 <= i < |kept| && Clash(kept[i], x)
  }

  function Greedy(ordered: seq<Item>): seq<Item> {
    if ordered == [] then []
    else
      var kept := Greedy(ordered[..|ordered| - 1]);
      if ClashesAny(kept, ordered[|ordered| - 1]) then kept else kept + [ordered[|ordered| - 1]]
  }

  lemma {:induction false} GreedyIsGiven(ordered: seq<Item>)
    ensures multiset(Greedy(ordered)) <= multiset(ordered)
    decreases |ordered|
  {
    if ordered != [] {
      GreedyIsGiven(ordered[..|ordered| - 1]);
      assert ordered == ordered[..|ordered| - 1] + [ordered[|ordered| - 1]];
    }
  }

  lemma {:induction false} GreedyNeverClashes(ordered: seq<Item>)
    ensures forall i, j :: 0 <= i < j < |Greedy(ordered)| ==> !Clash(Greedy(ordered)[i], Greedy(ordered)[j])
    decreases |ordered|
  {
    if ordered != [] { GreedyNeverClashes(ordered[..|ordered| - 1]); }
  }

  /** A kept item that stands in for x: it clashes with x and sorts no later. */
  ghost predicate Covered(kept: seq<Item>, x: Item) {
    exists m :: 0 <= m < |kept| && Clash(kept[m], x) && KeyLe(kept[m], x)
  }

  lemma CoveredSnoc(kept: seq<Item>, y: Item, x: Item)
    requires Covered(kept, x)
    ensures Covered(kept + [y], x)
  {
    var m :| 0 <= m < |kept| && Clash(kept[m], x) && KeyLe(kept[m], x);
    assert (kept + [y])[m] == kept[m];
  }

  /** Every kept item is one of the given ones. */
  lemma KeptWasGiven(items: seq<Item>, m: nat) returns (i: nat)
    requires m < |Greedy(items)|
    ensures i < |items| && items[i] == Greedy(items)[m]
  {
    GreedyIsGiven(items);
    var kept := Greedy(items);
    assert kept[m] in multiset(kept) && kept[m] in multiset(items);
    i :| 0 <= i < |items| && items[i] == kept[m];
  }

  lemma CoveredByKept(kept: seq<Item>, x: Item, m: nat)
    requires m < |kept| && Clash(kept[m], x) && KeyLe(kept[m], x)
    ensures Covered(kept, x)
  {
  }

  lemma LastIsCovered(ordered: seq<Item>)
    requires Sorted(ordered) && ordered != []
    ensures Covered(Greedy(ordered), ordered[|ordered| - 1])
  {
    var init, last := ordered[..|ordered| - 1], ordered[|ordered| - 1];
    var before := Greedy(init);
    if ClashesAny(before, last) {
      var m :| 0 <= m < |before| && Clash(before[m], last);
      var i := KeptWasGiven(init, m);
      assert ordered[i] == before[m];
      CoveredByKept(before, last, m);
    } else {
      KeyLeTotal(last, last);
      CoveredByKept(before + [last], last, |before|);
    }
  }

  lemma {:induction false} GreedyCovers(ordered: seq<Item>, j: nat)
    requires Sorted(ordered) && j < |ordered|
    ensures Covered(Greedy(ordered), ordered[j])
    decreases |ordered|
  {
    if j == |ordered| - 1 {
      LastIsCovered(ordered);
    } else {
      var init, last := ordered[..|ordered| - 1], ordered[|ordered| - 1];
      GreedyCovers(init, j);
      assert init[j] == ordered[j];
      CoveredSnoc(Greedy(init), last, ordered[j]);
    }
  }

  function RefsOf(s: seq<Item>): set<string> { set i | 0 <= i < |s| :: s[i].ref }

  function SourcesOf(s: seq<Item>): set<string> { set i | 0 <= i < |s| && s[i].source != "" :: s[i].source }

  lemma SeenSetsDecideClash(s: seq<Item>, x: Item)
    ensures ClashesAny(s, x) <==> x.ref in RefsOf(s) || (x.source != "" && x.source in SourcesOf(s))
    ensures RefsOf(s + [x]) == RefsOf(s) + {x.ref}
    ensures SourcesOf(s + [x]) == SourcesOf(s) + (if x.source != "" then {x.source} else {})
  {
    var t := s + [x];
    assert forall i :: 0 <= i < |s| ==> t[i] == s[i];
    assert t[|s|] == x;
  }

  method DeduplicateSources(items: seq<Item>) returns (selected: seq<Item>, duplicates: nat)
    ensures selected == Greedy(Sort(items))
    ensures |selected| + duplicates == |items|
  {
    var ordered := Sort(items);
    SortKeepsLength(items);
    selected := [];
    var seenRefs: set<string>, seenSources: set<string> := {}, {};
    var i := 0;
    while i < |ordered|
      invariant 0 <= i <= |ordered| && |selected| <= i
      invariant selected == Greedy(ordered[..i])
      invariant seenRefs == RefsOf(selected) && seenSources == SourcesOf(selected)
    {
      var item := ordered[i];
      assert ordered[..i + 1][..i] == ordered[..i];
      SeenSetsDecideClash(selected, item);
      SeenSetsGrow(selected, item);
      if !(item.ref in seenRefs || (item.source != "" && item.source in seenSources)) {
        seenRefs := seenRefs + {item.ref};
        if item.source != "" { seenSources := seenSources + {item.source}; }
        selected := selected + [item];
      }
      i := i + 1;
    }
    assert ordered[..i] == ordered;
    duplicates := |items| - |selected|;
  }

  lemma SeenSetsGrow(selected: seq<Item>, item: Item)
    ensures RefsOf(selected + [item]) == RefsOf(selected) + {item.ref}
    ensures SourcesOf(selected + [item]) == SourcesOf(selected) + (if item.source != "" then {item.source} else {})
  {
    var all := selected + [item];
    assert all[|selected|] == item && forall i | 0 <= i < |selected| :: all[i] == selected[i];
  }

  lemma SortKeepsLength(items: seq<Item>)
    ensures |Sort(items)| == |items|
  {
    SortSorts(items);
    assert |multiset(Sort(items))| == |multiset(items)|;
  }

  /** Deduplication is a maximal choice by priority: no two kept items clash, every given item
      clashes with a kept one that sorts no later (with itself, if kept), and every kept item
      was given. */
  lemma DedupIsMaximalByPriority(items: seq<Item>)
    ensures var kept := Greedy(Sort(items));
      && (forall i, j :: 0 <= i < j < |kept| ==> !Clash(kept[i], kept[j]))
      && (forall x :: x in items ==> Covered(kept, x))
      && multiset(kept) <= multiset(items)
  {
    SortSorts(items);
    var ordered := Sort(items);
    GreedyNeverClashes(ordered);
    GreedyIsGiven(ordered);
    forall x | x in items ensures Covered(Greedy(ordered), x) {
      assert x in multiset(ordered);
      var j :| 0 <= j < |ordered| && ordered[j] == x;
      GreedyCovers(ordered, j);
    }
  }

  // ---------------------------------------------------------------------------
  // Budget.

  function Overhead(x: Item): seq<string> { [x.title, x.url, x.ref] }

  function Estimate(x: Item): (n: nat)
    ensures n >= 1
  {
    EstimatedTokens(Overhead(x) + [x.content])
  }

  function Counted(x: Item): Item { x.(tokens := Estimate(x)) }

  function CountAll(items: seq<Item>): (r: seq<Item>)
    ensures |r| == |items| && forall i :: 0 <= i < |items| ==> r[i] == Counted(items[i])
  {
    seq(|items|, i requires 0 <= i < |items| => Counted(items[i]))
  }

  function Total(items: seq<Item>): nat {
    if items == [] then 0 else Total(items[..|items| - 1]) + items[|items| - 1].tokens
  }

  function EstimateAll(items: seq<Item>): nat {
    if items == [] then 0 else EstimateAll(items[..|items| - 1]) + Estimate(items[|items| - 1])
  }

  /** The first item, cut to the budget; empty when nothing of it fits. */
  function CutFirst(x: Item, budget: int): seq<Item> {
    var content := Fitted(x.content, Overhead(x), budget);
    if content == "" then [] else [Counted(x.(content := content)).(truncated := true)]
  }

  /** n is the length of the longest prefix whose estimates fit the budget. */
  ghost predicate LongestFit(items: seq<Item>, budget: int, n: nat) {
    && n <= |items|
    && (n == 0 || EstimateAll(items[..n]) <= budget)
    && (n < |items| ==> EstimateAll(items[..n + 1]) > budget)
  }

  lemma {:induction false} EstimatesGrow(items: seq<Item>, n: nat, m: nat)
    requires n <= m <= |items|
    ensures EstimateAll(items[..n]) + (m - n) <= EstimateAll(items[..m])
    decreases m
  {
    if n < m {
      EstimatesGrow(items, n, m - 1);
      assert items[..m][..m - 1] == items[..m - 1];
    }
  }

  /** Estimates are positive, so the longest fitting prefix is unique. */
  lemma LongestFitIsLongest(items: seq<Item>, budget: int, n: nat, m: nat)
    requires LongestFit(items, budget, n) && m <= |items| && EstimateAll(items[..m]) <= budget
    ensures m <= n
  {
    if m > n { EstimatesGrow(items, n + 1, m); }
  }

  function FitLength(items: seq<Item>, budget: int): (n: nat)
    ensures n <= |items|
  {
    if items == [] then 0
    else
      var n := FitLength(items[..|items| - 1], budget);
      if n == |items| - 1 && EstimateAll(items) <= budget then n + 1 else n
  }

  lemma {:induction false} FitLengthIsLongestFit(items: seq<Item>, budget: int)
    ensures LongestFit(items, budget, FitLength(items, budget))
    decreases |items|
  {
    if items != [] {
      var init := items[..|items| - 1];
      FitLengthIsLongestFit(init, budget);
      var n := FitLength(init, budget);
      assert init[..n] == items[..n];
      if n < |init| { assert init[..n + 1] == items[..n + 1]; }
      assert items[..|items|] == items;
    }
  }

  lemma FitLengthIs(items: seq<Item>, budget: int, n: nat)
    requires LongestFit(items, budget, n)
    ensures FitLength(items, budget) == n
  {
    FitLengthIsLongestFit(items, budget);
    var m := FitLength(items, budget);
    if m != 0 { LongestFitIsLongest(items, budget, n, m); }
    if n != 0 { LongestFitIsLongest(items, budget, m, n); }
  }

  /** The longest prefix that fits or, when not even the first item does, at most that item
      cut to the budget. */
  function Selection(items: seq<Item>, budget: int): (r: seq<Item>)
    ensures |r| <= |items|
  {
    var n := FitLength(items, budget);
    if n > 0 || items == [] then CountAll(items[..n]) else CutFirst(items[0], budget)
  }

  lemma {:induction false} TotalOfCounted(items: seq<Item>)
    ensures Total(CountAll(items)) == EstimateAll(items)
    decreases |items|
  {
    if items != [] {
      TotalOfCounted(items[..|items| - 1]);
      assert CountAll(items)[..|items| - 1] == CountAll(items[..|items| - 1]);
    }
  }

  lemma CutFirstFits(x: Item, budget: int)
    ensures Total(CutFirst(x, budget)) <= (if budget < 0 then 0 else budget)
  {
    FittedFitsAndIsLongest(x.content, Overhead(x), budget);
    var c := CutFirst(x, budget);
    if c != [] { assert c[..0] == []; }
  }

  /** The last resort for a first item that does not fit. */
  method FitFirst(item: Item, budget: int) returns (selected: seq<Item>, used: nat)
    ensures selected == CutFirst(item, budget)
    ensures used == Total(selected) && used <= (if budget < 0 then 0 else budget)
  {
    CutFirstFits(item, budget);
    var content := FitExcerpt(item.content, budget, Overhead(item));
    if content == "" {
      return [], 0;
    }
    var tokens := EstimatedTokens(Overhead(item) + [content]);
    selected := [item.(content := content, tokens := tokens, truncated := true)];
    assert selected[..0] == [];
    used := tokens;
  }

  lemma EstimateSnoc(items: seq<Item>, i: nat)
    requires i < |items|
    ensures EstimateAll(items[..i + 1]) == EstimateAll(items[..i]) + Estimate(items[i])
    ensures CountAll(items[..i + 1]) == CountAll(items[..i]) + [Counted(items[i])]
  {
    assert items[..i + 1][..i] == items[..i];
  }

  /** The reported usage is the sum of the selected counts, within the budget, and every item
      is either selected or reported omitted. */
  method FitItems(items: seq<Item>, budget: int) returns (selected: seq<Item>, used: nat, omitted: nat)
    ensures selected == Selection(items, budget)
    ensures used == Total(selected) && used <= (if budget < 0 then 0 else budget)
    ensures |selected| + omitted == |items|
  {
    selected, used := [], 0;
    var i := 0;
    while i < |items|
      invariant 0 <= i <= |items| && selected == CountAll(items[..i])
      invariant used == EstimateAll(items[..i]) && (i == 0 || used <= budget)
    {
      var item := items[i];
      var remaining := budget - used;
      EstimateSnoc(items, i);
      if remaining <= 0 {
        break;
      }
      var tokens := Estimate(item);
      if tokens <= remaining {
        selected := selected + [item.(tokens := tokens)];
        used := used + tokens;
        i := i + 1;
        continue;
      }
      if selected != [] {
        break;
      }
      FirstIsCut(items, budget);
      selected, used := FitFirst(item, remaining);
      omitted := |items| - |selected|;
      return;
    }
    PrefixIsSelected(items, budget, i);
    omitted := |items| - |selected|;
  }

  lemma FirstIsCut(items: seq<Item>, budget: int)
    requires items != [] && Estimate(items[0]) > budget
    ensures Selection(items, budget) == CutFirst(items[0], budget)
  {
    EstimateSnoc(items, 0);
    FitLengthIs(items, budget, 0);
  }

  lemma PrefixIsSelected(items: seq<Item>, budget: int, i: nat)
    requires LongestFit(items, budget, i) && (i == 0 ==> items == [] || budget <= 0)
    ensures Selection(items, budget) == CountAll(items[..i]) && Total(CountAll(items[..i])) == EstimateAll(items[..i])
  {
    FitLengthIs(items, budget, i);
    TotalOfCounted(items[..i]);
    if i == 0 && items != [] { NothingFits(items[0], budget); }
  }

  lemma NothingFits(x: Item, budget: int)
    requires budget <= 0
    ensures CutFirst(x, budget) == []
  {
  }
}
