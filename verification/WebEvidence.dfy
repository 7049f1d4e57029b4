/** Conservative token accounting for bounded evidence, and the excerpt cut that uses it. */
module WebEvidence {
  import opened PyText

  predicate IsAscii(c: char) { c as int < 0x80 }

  /** Length of the character in UTF-8. */
  function Utf8Length(c: char): nat {
    var n := c as int;
    if n < 0x80 then 1 else if n < 0x800 then 2 else if n < 0x1_0000 then 3 else 4
  }

  function AsciiCount(s: string): nat {
    if s == "" then 0 else AsciiCount(s[..|s| - 1]) + (if IsAscii(s[|s| - 1]) then 1 else 0)
  }

  function NonAsciiBytes(s: string): nat {
    if s == "" then 0 else NonAsciiBytes(s[..|s| - 1]) + (if IsAscii(s[|s| - 1]) then 0 else Utf8Length(s[|s| - 1]))
  }

  /** `"\n".join(parts)` */
  function Join(parts: seq<string>): string {
    if parts == [] then ""
    else if |parts| == 1 then parts[0]
    else Join(parts[..|parts| - 1]) + "\n" + parts[|parts| - 1]
  }

  function Weigh(ascii: nat, bytes: nat): nat {
    var n := (ascii + 3) / 4 + (bytes + 1) / 2;
    if n < 1 then 1 else n
  }

  function EstimatedTokens(parts: seq<string>): (n: nat)
    ensures n >= 1
  {
    Weigh(AsciiCount(Join(parts)), NonAsciiBytes(Join(parts)))
  }

  lemma {:induction false} CountsAdd(a: string, b: string)
    ensures AsciiCount(a + b) == AsciiCount(a) + AsciiCount(b)
    ensures NonAsciiBytes(a + b) == NonAsciiBytes(a) + NonAsciiBytes(b)
    decreases |b|
  {
    if b == "" {
      assert a + b == a;
    } else {
      CountsAdd(a, b[..|b| - 1]);
      assert (a + b)[..|a + b| - 1] == a + b[..|b| - 1];
    }
  }

  /** The last part contributes its own counts on top of what precedes it. */
  lemma LastPartAdds(overhead: seq<string>, x: string)
    ensures AsciiCount(Join(overhead + [x])) == AsciiCount(Join(overhead + [""])) + AsciiCount(x)
    ensures NonAsciiBytes(Join(overhead + [x])) == NonAsciiBytes(Join(overhead + [""])) + NonAsciiBytes(x)
  {
    if overhead != [] {
      var o, e := overhead + [x], overhead + [""];
      assert o[..|o| - 1] == overhead && e[..|e| - 1] == overhead;
      CountsAdd(Join(overhead) + "\n", x);
      CountsAdd(Join(overhead) + "\n", "");
    }
  }

  // ---------------------------------------------------------------------------

  const MARKER := "..."

  function Candidate(excerpt: string, k: nat): string
    requires k <= |excerpt|
  {
    RStrip(excerpt[..k]) + MARKER
  }

  /** Cost of the first k characters, right-trimmed and marked as cut. */
  function Cost(excerpt: string, overhead: seq<string>, k: nat): nat
    requires k <= |excerpt|
  {
    EstimatedTokens(overhead + [Candidate(excerpt, k)])
  }

  lemma CostMonotone(excerpt: string, overhead: seq<string>, i: nat, k: nat)
    requires i <= k <= |excerpt|
    ensures Cost(excerpt, overhead, i) <= Cost(excerpt, overhead, k)
  {
    RStripGrows(excerpt, i, k);
    var a, b := RStrip(excerpt[..i]), RStrip(excerpt[..k]);
    CountsAdd(a, MARKER);
    CountsAdd(b, MARKER);
    assert b == a + b[|a|..];
    CountsAdd(a, b[|a|..]);
    LastPartAdds(overhead, a + MARKER);
    LastPartAdds(overhead, b + MARKER);
  }

  /** The marker alone always fits once the budget passes the fixed headroom. */
  lemma MarkerFits(excerpt: string, overhead: seq<string>)
    ensures Cost(excerpt, overhead, 0) <= EstimatedTokens(overhead + [""]) + 1
  {
    assert excerpt[..0] == "" && Candidate(excerpt, 0) == MARKER;
    LastPartAdds(overhead, MARKER);
    assert MARKER == ("." + ".") + ".";
    assert AsciiCount(MARKER) == 3 && NonAsciiBytes(MARKER) == 0 by {
      CountsAdd("." + ".", ".");
      CountsAdd(".", ".");
      assert "."[..0] == "";
    }
  }

  /** The largest index up to k whose value is within the budget, by looking at each; 0 if
      there is none. */
  function Largest(f: nat -> int, budget: int, k: nat): (r: nat)
    ensures r <= k
  {
    if k == 0 || f(k) <= budget then k else Largest(f, budget, k - 1)
  }

  lemma {:induction false} LargestIs(f: nat -> int, budget: int, k: nat, r: nat)
    requires r <= k && (r == 0 || f(r) <= budget) && forall i :: r < i <= k ==> f(i) > budget
    ensures Largest(f, budget, k) == r
    decreases k
  {
    if r < k { LargestIs(f, budget, k - 1, r); }
  }

  lemma {:induction false} LargestFits(f: nat -> int, budget: int, k: nat)
    requires f(0) <= budget
    ensures f(Largest(f, budget, k)) <= budget
    ensures forall i :: Largest(f, budget, k) < i <= k ==> f(i) > budget
    decreases k
  {
    if k != 0 && f(k) > budget { LargestFits(f, budget, k - 1); }
  }

  function CostOf(excerpt: string, overhead: seq<string>): nat -> int {
    (k: nat) => if k <= |excerpt| then Cost(excerpt, overhead, k) else 0
  }

  /** The longest prefix that fits. */
  function LongestCut(excerpt: string, overhead: seq<string>, budget: int): (r: nat)
    ensures r <= |excerpt|
  {
    Largest(CostOf(excerpt, overhead), budget, |excerpt|)
  }

  /** What `fit_excerpt` promises: nothing below the headroom, the excerpt when it fits, else
      the longest right-trimmed prefix that fits with its marker, unless that is blank. */
  function Fitted(excerpt: string, overhead: seq<string>, budget: int): string {
    if budget <= EstimatedTokens(overhead + [""]) + 15 then ""
    else if EstimatedTokens(overhead + [excerpt]) <= budget then excerpt
    else
      var clipped := RStrip(excerpt[..LongestCut(excerpt, overhead, budget)]);
      if clipped == "" then "" else clipped + MARKER
  }

  method FitExcerpt(excerpt: string, budget: int, overhead: seq<string>) returns (r: string)
    ensures r == Fitted(excerpt, overhead, budget)
  {
    if budget <= EstimatedTokens(overhead + [""]) + 15 {
      return "";
    }
    if EstimatedTokens(overhead + [excerpt]) <= budget {
      return excerpt;
    }
    var lower, upper := 0, |excerpt|;
    while lower < upper
      invariant 0 <= lower <= upper <= |excerpt|
      invariant lower == 0 || Cost(excerpt, overhead, lower) <= budget
      invariant forall i :: upper < i <= |excerpt| ==> Cost(excerpt, overhead, i) > budget
    {
      var midpoint := (lower + upper + 1) / 2;
      if Cost(excerpt, overhead, midpoint) <= budget {
        lower := midpoint;
      } else {
        forall i | midpoint <= i <= |excerpt| ensures Cost(excerpt, overhead, i) > budget {
          CostMonotone(excerpt, overhead, midpoint, i);
        }
        upper := midpoint - 1;
      }
    }
    LargestIs(CostOf(excerpt, overhead), budget, |excerpt|, lower);
    var clipped := RStrip(excerpt[..lower]);
    r := if clipped == "" then "" else clipped + MARKER;
  }

  /** A non-empty result fits the budget together with its overhead, and no longer prefix,
      trimmed and marked, would have. */
  lemma FittedFitsAndIsLongest(excerpt: string, overhead: seq<string>, budget: int)
    ensures Fitted(excerpt, overhead, budget) != "" ==> EstimatedTokens(overhead + [Fitted(excerpt, overhead, budget)]) <= budget
    ensures budget > EstimatedTokens(overhead + [""]) + 15 && EstimatedTokens(overhead + [excerpt]) > budget ==>
      forall k :: 0 <= k <= |excerpt| && Cost(excerpt, overhead, k) <= budget && RStrip(excerpt[..k]) != "" ==>
        Candidate(excerpt, k) == Fitted(excerpt, overhead, budget) || |Candidate(excerpt, k)| < |Fitted(excerpt, overhead, budget)|
  {
    if budget > EstimatedTokens(overhead + [""]) + 15 && EstimatedTokens(overhead + [excerpt]) > budget {
      var cut := LongestCut(excerpt, overhead, budget);
      MarkerFits(excerpt, overhead);
      LargestFits(CostOf(excerpt, overhead), budget, |excerpt|);
      forall k | 0 <= k <= |excerpt| && Cost(excerpt, overhead, k) <= budget && RStrip(excerpt[..k]) != ""
        ensures Candidate(excerpt, k) == Fitted(excerpt, overhead, budget) || |Candidate(excerpt, k)| < |Fitted(excerpt, overhead, budget)|
      {
        assert CostOf(excerpt, overhead)(k) <= budget;
        RStripGrows(excerpt, k, cut);
        var a, b := RStrip(excerpt[..k]), RStrip(excerpt[..cut]);
        if |a| == |b| { assert a == b; }
      }
    }
  }
}
