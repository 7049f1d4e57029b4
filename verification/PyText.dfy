/** The parts of Python's `str` the evidence and settings code relies on. */
module PyText {

  /** `str.isspace` for one character. */
  predicate IsSpace(c: char) {
    var n := c as int;
    || 0x09 <= n <= 0x0d || 0x1c <= n <= 0x20 || n == 0x85 || n == 0xa0 || n == 0x1680
    || 0x2000 <= n <= 0x200a || n == 0x2028 || n == 0x2029 || n == 0x202f || n == 0x205f || n == 0x3000
  }

  function RStrip(s: string): string {
    if s != "" && IsSpace(s[|s| - 1]) then RStrip(s[..|s| - 1]) else s
  }

  function LStrip(s: string): string {
    if s != "" && IsSpace(s[0]) then LStrip(s[1..]) else s
  }

  lemma {:induction false} RStripIs(s: string)
    ensures RStrip(s) <= s
    ensures RStrip(s) != "" ==> !IsSpace(RStrip(s)[|RStrip(s)| - 1])
    ensures forall i :: |RStrip(s)| <= i < |s| ==> IsSpace(s[i])
    decreases |s|
  {
    if s != "" && IsSpace(s[|s| - 1]) {
      RStripIs(s[..|s| - 1]);
      assert forall i :: 0 <= i < |s| - 1 ==> s[..|s| - 1][i] == s[i];
    }
  }

  lemma {:induction false} LStripIs(s: string)
    ensures |LStrip(s)| <= |s| && LStrip(s) == s[|s| - |LStrip(s)|..]
    ensures LStrip(s) != "" ==> !IsSpace(LStrip(s)[0])
    decreases |s|
  {
    if s != "" && IsSpace(s[0]) { LStripIs(s[1..]); }
  }

  function Strip(s: string): string { LStrip(RStrip(s)) }

  lemma RStripKeeps(s: string)
    requires s == "" || !IsSpace(s[|s| - 1])
    ensures RStrip(s) == s
  {
  }

  /** Stripping is final: the result is not blank at either end, and stripping it again or
      keeping an unpadded string changes nothing. */
  lemma StripIsClean(s: string)
    ensures Strip(s) != "" ==> !IsSpace(Strip(s)[0]) && !IsSpace(Strip(s)[|Strip(s)| - 1])
    ensures Strip(Strip(s)) == Strip(s)
  {
    var r := RStrip(s);
    var t := LStrip(r);
    RStripIs(s);
    LStripIs(r);
    if t != "" {
      assert t[|t| - 1] == r[|r| - 1];
    }
    RStripKeeps(t);
  }

  lemma StripClean(s: string)
    ensures Strip(s) == s <==> s == "" || (!IsSpace(s[0]) && !IsSpace(s[|s| - 1]))
  {
    StripIsClean(s);
    if s == "" || (!IsSpace(s[0]) && !IsSpace(s[|s| - 1])) { RStripKeeps(s); }
    RStripIs(s);
    LStripIs(RStrip(s));
  }

  /** One more character can only lengthen the right-trimmed text. */
  lemma RStripGrows(s: string, i: nat, k: nat)
    requires i <= k <= |s|
    ensures RStrip(s[..i]) <= RStrip(s[..k])
  {
    var a, b := RStrip(s[..i]), RStrip(s[..k]);
    RStripIs(s[..i]);
    RStripIs(s[..k]);
    if a != "" {
      var j := |a| - 1;
      assert a[j] == s[..i][j] == s[j] == s[..k][j];
    }
    assert a == s[..|a|] && b == s[..|b|];
  }
}
