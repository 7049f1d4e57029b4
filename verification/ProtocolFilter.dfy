/**
 The incremental filter that strips the legacy `<tool>`/`<final>` response protocol from
 streamed assistant text, and the scanner it must agree with however the text is cut.
 */
module ProtocolFilter {
  import opened Options

  datatype Mode = Text | Tool | Final

  datatype Tag = OpenTool | CloseTool | OpenFinal | CloseFinal {
    function Spelling(): (s: string)
      ensures 6 <= |s| <= 8 && s[0] == '<'
    {
      match this
      case OpenTool => "<tool>"
      case CloseTool => "</tool>"
      case OpenFinal => "<final>"
      case CloseFinal => "</final>"
    }

    /** The mode after the tag has been consumed in text mode. */
    function ModeAfter(): Mode {
      match this
      case OpenTool => Tool
      case OpenFinal => Final
      case _ => Text
    }
  }

  /** Lower-casing that keeps length, character by character. */
  function Lower(c: char): char {
    if 'A' <= c <= 'Z' then (c as int + 32) as char else c
  }

  predicate SpelledAt(s: string, word: string, i: nat) {
    i + |word| <= |s| && forall j :: 0 <= j < |word| ==> Lower(s[i + j]) == word[j]
  }

  predicate At(s: string, tag: Tag, i: nat) { SpelledAt(s, tag.Spelling(), i) }

  predicate NoTagAt(s: string, i: nat) {
    !At(s, OpenTool, i) && !At(s, CloseTool, i) && !At(s, OpenFinal, i) && !At(s, CloseFinal, i)
  }

  function ClosingTag(mode: Mode): Tag
    requires !mode.Text?
  {
    if mode.Tool? then CloseTool else CloseFinal
  }

  // ---------------------------------------------------------------------------
  // The scanner: one character or one tag at a time.

  function TagAtFront(s: string): Option<Tag> {
    if At(s, OpenTool, 0) then Some(OpenTool)
    else if At(s, CloseTool, 0) then Some(CloseTool)
    else if At(s, OpenFinal, 0) then Some(OpenFinal)
    else if At(s, CloseFinal, 0) then Some(CloseFinal)
    else None
  }

  function Drop(s: string, tag: Tag): (r: string)
    ensures s != "" ==> |r| < |s|
  {
    if |tag.Spelling()| <= |s| then s[|tag.Spelling()|..] else ""
  }

  /** What a reader of the whole text sees: tags are removed, the inside of a tool block is
      dropped, the inside of a final block is kept, and an unclosed block runs to the end. */
  function Scan(mode: Mode, s: string): string
    decreases |s|
  {
    if s == "" then ""
    else if mode.Text? then
      match TagAtFront(s)
      case Some(tag) => Scan(tag.ModeAfter(), Drop(s, tag))
      case None => [s[0]] + Scan(Text, s[1..])
    else if At(s, ClosingTag(mode), 0) then Scan(Text, Drop(s, ClosingTag(mode)))
    else if mode.Final? then [s[0]] + Scan(Final, s[1..])
    else Scan(Tool, s[1..])
  }

  // ---------------------------------------------------------------------------
  // What the incremental code computes.

  ghost predicate NoneBefore(s: string, word: string, n: int) {
    forall i :: 0 <= i < n ==> !SpelledAt(s, word, i)
  }

  /** `buffer.lower().find(word, from)`. */
  function Find(s: string, word: string, from: nat): (r: Option<nat>)
    requires from <= |s|
    ensures r.Some? ==> r.value <= |s| && SpelledAt(s, word, r.value)
    decreases |s| - from
  {
    if SpelledAt(s, word, from) then Some(from) else if from == |s| then None else Find(s, word, from + 1)
  }

  lemma {:induction false} FindIsFirst(s: string, word: string, from: nat)
    requires from <= |s| && NoneBefore(s, word, from)
    ensures NoneBefore(s, word, if Find(s, word, from).Some? then Find(s, word, from).value else |s| + 1)
    decreases |s| - from
  {
    if !SpelledAt(s, word, from) && from < |s| { FindIsFirst(s, word, from + 1); }
  }

  datatype Hit = Miss | Hit(index: nat, tag: Tag)

  function Earlier(best: Hit, index: Option<nat>, tag: Tag): Hit {
    if index.None? || (best.Hit? && best.index <= index.value) then best else Hit(index.value, tag)
  }

  /** The earliest tag: `min(candidates, key=index)`. */
  function FirstTag(s: string): (r: Hit)
    ensures r.Hit? ==> r.index <= |s| && At(s, r.tag, r.index)
  {
    var first := Earlier(Miss, Find(s, OpenTool.Spelling(), 0), OpenTool);
    var second := Earlier(first, Find(s, CloseTool.Spelling(), 0), CloseTool);
    var third := Earlier(second, Find(s, OpenFinal.Spelling(), 0), OpenFinal);
    Earlier(third, Find(s, CloseFinal.Spelling(), 0), CloseFinal)
  }

  lemma FirstTagIsFirst(s: string, i: nat)
    requires i <= |s| && (FirstTag(s).Hit? ==> i < FirstTag(s).index)
    ensures NoTagAt(s, i)
  {
    FindIsFirst(s, OpenTool.Spelling(), 0);
    FindIsFirst(s, CloseTool.Spelling(), 0);
    FindIsFirst(s, OpenFinal.Spelling(), 0);
    FindIsFirst(s, CloseFinal.Spelling(), 0);
  }

  /** `hit` is the earliest tag of `s`, or there is none. */
  ghost predicate IsFirst(s: string, hit: Hit) {
    && (hit.Hit? ==> At(s, hit.tag, hit.index) && forall i :: 0 <= i < hit.index ==> NoTagAt(s, i))
    && (hit.Miss? ==> forall i :: 0 <= i <= |s| ==> NoTagAt(s, i))
  }

  lemma FirstTagFound(s: string)
    ensures IsFirst(s, FirstTag(s))
  {
    var hit := FirstTag(s);
    forall i | 0 <= i <= |s| && (hit.Hit? ==> i < hit.index) ensures NoTagAt(s, i) { FirstTagIsFirst(s, i); }
  }

  /** The last k characters of s are a proper prefix of the tag. */
  predicate TailStarts(s: string, tag: Tag, k: nat) {
    k <= |s| && k < |tag.Spelling()| && forall j :: 0 <= j < k ==> Lower(s[|s| - k + j]) == tag.Spelling()[j]
  }

  predicate TailStartsTag(s: string, k: nat) {
    TailStarts(s, OpenTool, k) || TailStarts(s, CloseTool, k) || TailStarts(s, OpenFinal, k) || TailStarts(s, CloseFinal, k)
  }

  function LongestTail(s: string, k: nat): (r: nat)
    ensures r <= k && r <= |s|
    ensures r != 0 ==> TailStartsTag(s, r)
    ensures forall m :: r < m <= k ==> !TailStartsTag(s, m)
  {
    if k == 0 then 0 else if TailStartsTag(s, k) then k else LongestTail(s, k - 1)
  }

  /** The `keep` computation: the longest suffix that is a proper prefix of a tag. */
  function Keep(s: string): (r: nat)
    ensures r <= |s| && r <= 7
    ensures r != 0 ==> TailStartsTag(s, r)
    ensures forall m :: r < m ==> !TailStartsTag(s, m)
  {
    LongestTail(s, 7)
  }

  // ---------------------------------------------------------------------------
  // Agreement.

  lemma AtShift(s: string, tag: Tag, d: nat, i: nat)
    requires d <= |s|
    ensures At(s[d..], tag, i) <==> At(s, tag, d + i)
  {
    var w := tag.Spelling();
    if At(s[d..], tag, i) {
      forall j | 0 <= j < |w| ensures Lower(s[d + i + j]) == w[j] { assert s[d..][i + j] == s[d + i + j]; }
    }
  }

  lemma NoTagShift(s: string, d: nat, i: nat)
    requires d <= |s|
    ensures NoTagAt(s[d..], i) <==> NoTagAt(s, d + i)
  {
    AtShift(s, OpenTool, d, i);
    AtShift(s, CloseTool, d, i);
    AtShift(s, OpenFinal, d, i);
    AtShift(s, CloseFinal, d, i);
  }

  lemma AtPrefix(s: string, rest: string, tag: Tag, i: nat)
    requires i + |tag.Spelling()| <= |s|
    ensures At(s + rest, tag, i) <==> At(s, tag, i)
  {
    var w := tag.Spelling();
    var t := s + rest;
    if At(t, tag, i) {
      forall j | 0 <= j < |w| ensures Lower(s[i + j]) == w[j] { assert t[i + j] == s[i + j]; }
    }
  }

  /** No two tags start at the same place: they differ in their second or third letter. */
  lemma SameTag(s: string, a: Tag, b: Tag)
    requires At(s, a, 0) && At(s, b, 0)
    ensures a == b
  {
    assert a.Spelling()[1] == Lower(s[0 + 1]) == b.Spelling()[1];
    assert a.Spelling()[2] == Lower(s[0 + 2]) == b.Spelling()[2];
  }

  lemma OneTagAtFront(s: string, tag: Tag)
    requires At(s, tag, 0)
    ensures TagAtFront(s) == Some(tag)
  {
    forall other: Tag | At(s, other, 0) ensures other == tag { SameTag(s, other, tag); }
  }

  lemma NoTagAtFront(s: string)
    ensures TagAtFront(s) == None <==> NoTagAt(s, 0)
  {
  }

  lemma ScanOne(s: string)
    requires s != "" && NoTagAt(s, 0)
    ensures Scan(Text, s) == [s[0]] + Scan(Text, s[1..])
  {
    NoTagAtFront(s);
  }

  lemma {:induction false} Telescope(f: nat -> string, s: string, n: nat)
    requires n <= |s| && forall i :: 0 <= i < n ==> f(i) == [s[i]] + f(i + 1)
    ensures f(0) == s[..n] + f(n)
    decreases n
  {
    if n != 0 {
      Telescope(f, s, n - 1);
      assert s[..n] == s[..n - 1] + [s[n - 1]];
    }
  }

  /** Text before the first tag passes through. */
  lemma ScanPlain(s: string, n: nat)
    requires n <= |s| && forall i :: 0 <= i < n ==> NoTagAt(s, i)
    ensures Scan(Text, s) == s[..n] + Scan(Text, s[n..])
  {
    var f := (i: nat) => if i <= |s| then Scan(Text, s[i..]) else "";
    forall i | 0 <= i < n ensures f(i) == [s[i]] + f(i + 1) {
      NoTagShift(s, i, 0);
      ScanOne(s[i..]);
      assert s[i..][1..] == s[i + 1..];
    }
    Telescope(f, s, n);
    assert s[0..] == s;
  }

  lemma ScanFromTag(s: string, tag: Tag, i: nat)
    requires At(s, tag, i) && forall m :: 0 <= m < i ==> NoTagAt(s, m)
    ensures Scan(Text, s) == s[..i] + Scan(tag.ModeAfter(), s[i + |tag.Spelling()|..])
  {
    ScanPlain(s, i);
    ScanLater(s, tag, i);
  }

  lemma ScanLater(s: string, tag: Tag, i: nat)
    requires At(s, tag, i)
    ensures Scan(Text, s[i..]) == Scan(tag.ModeAfter(), s[i + |tag.Spelling()|..])
  {
    AtShift(s, tag, i, 0);
    ScanAtTag(s[i..], tag);
    assert s[i..][|tag.Spelling()|..] == s[i + |tag.Spelling()|..];
  }

  lemma ScanAtTag(s: string, tag: Tag)
    requires At(s, tag, 0)
    ensures Scan(Text, s) == Scan(tag.ModeAfter(), s[|tag.Spelling()|..])
  {
    OneTagAtFront(s, tag);
  }

  lemma ScanAtClosing(mode: Mode, s: string)
    requires !mode.Text? && At(s, ClosingTag(mode), 0)
    ensures Scan(mode, s) == Scan(Text, s[|ClosingTag(mode).Spelling()|..])
  {
  }

  function Kept(mode: Mode, s: string): string { if mode.Final? then s else "" }

  lemma ScanOneInBlock(mode: Mode, s: string)
    requires !mode.Text? && s != "" && !At(s, ClosingTag(mode), 0)
    ensures Scan(mode, s) == Kept(mode, [s[0]]) + Scan(mode, s[1..])
  {
  }

  /** Inside a block, everything before the closing tag is kept or dropped as a whole. */
  lemma {:induction false} ScanBlock(mode: Mode, s: string, n: nat)
    requires !mode.Text? && n <= |s| && NoneBefore(s, ClosingTag(mode).Spelling(), n)
    ensures Scan(mode, s) == Kept(mode, s[..n]) + Scan(mode, s[n..])
    decreases n
  {
    if n == 0 {
      assert s[..0] == [] && s[0..] == s;
    } else {
      ScanBlock(mode, s, n - 1);
      assert !At(s, ClosingTag(mode), n - 1);
      ScanOneLater(mode, s, n - 1);
      KeptSnoc(mode, s, n - 1);
      Assoc(Kept(mode, s[..n - 1]), Kept(mode, [s[n - 1]]), Scan(mode, s[n..]));
    }
  }

  lemma ScanOneLater(mode: Mode, s: string, i: nat)
    requires !mode.Text? && i < |s| && !At(s, ClosingTag(mode), i)
    ensures Scan(mode, s[i..]) == Kept(mode, [s[i]]) + Scan(mode, s[i + 1..])
  {
    AtShift(s, ClosingTag(mode), i, 0);
    ScanOneInBlock(mode, s[i..]);
    assert s[i..][1..] == s[i + 1..];
  }

  lemma KeptSnoc(mode: Mode, s: string, i: nat)
    requires i < |s|
    ensures Kept(mode, s[..i + 1]) == Kept(mode, s[..i]) + Kept(mode, [s[i]])
  {
    assert s[..i + 1] == s[..i] + [s[i]];
  }

  lemma StraddlingTag(b: string, rest: string, tag: Tag, i: nat)
    requires i <= |b| < i + |tag.Spelling()| && At(b + rest, tag, i)
    ensures TailStarts(b, tag, |b| - i)
  {
    var s := b + rest;
    forall j | 0 <= j < |b| - i ensures Lower(b[i + j]) == tag.Spelling()[j] { assert s[i + j] == b[i + j]; }
  }

  lemma TagNotBeforeTail(b: string, rest: string, tag: Tag, i: nat)
    requires i <= |b| && !At(b, tag, i) && !TailStarts(b, tag, |b| - i)
    ensures !At(b + rest, tag, i)
  {
    if i + |tag.Spelling()| <= |b| { AtPrefix(b, rest, tag, i); }
    else if At(b + rest, tag, i) { StraddlingTag(b, rest, tag, i); }
  }

  lemma NoTagBeforeTail(b: string, rest: string, i: nat)
    requires i <= |b| && NoTagAt(b, i) && !TailStartsTag(b, |b| - i)
    ensures NoTagAt(b + rest, i)
  {
    TagNotBeforeTail(b, rest, OpenTool, i);
    TagNotBeforeTail(b, rest, CloseTool, i);
    TagNotBeforeTail(b, rest, OpenFinal, i);
    TagNotBeforeTail(b, rest, CloseFinal, i);
  }

  /** Text without a tag, short of the part that could still become one, passes through
      whatever follows it. */
  lemma ScanHeld(b: string, rest: string)
    requires forall i :: 0 <= i <= |b| ==> NoTagAt(b, i)
    ensures Scan(Text, b + rest) == b[..|b| - Keep(b)] + Scan(Text, b[|b| - Keep(b)..] + rest)
  {
    var n := |b| - Keep(b);
    var s := b + rest;
    forall i | 0 <= i < n ensures NoTagAt(s, i) { NoTagBeforeTail(b, rest, i); }
    ScanPlain(s, n);
    assert s[..n] == b[..n];
    assert s[n..] == b[n..] + rest;
  }

  lemma CloseBlock(mode: Mode, b: string, index: nat, rest: string)
    requires !mode.Text? && At(b, ClosingTag(mode), index) && NoneBefore(b, ClosingTag(mode).Spelling(), index)
    ensures Scan(mode, b + rest) == Kept(mode, b[..index]) + Scan(Text, b[index + |ClosingTag(mode).Spelling()|..] + rest)
  {
    ScanToFirstClosing(mode, b, index, rest, b + rest);
    SplitAfter(b, rest, index, index + |ClosingTag(mode).Spelling()|);
  }

  lemma ScanToFirstClosing(mode: Mode, b: string, index: nat, rest: string, s: string)
    requires !mode.Text? && At(b, ClosingTag(mode), index) && NoneBefore(b, ClosingTag(mode).Spelling(), index) && s == b + rest
    ensures index + |ClosingTag(mode).Spelling()| <= |s|
    ensures Scan(mode, s) == Kept(mode, s[..index]) + Scan(Text, s[index + |ClosingTag(mode).Spelling()|..])
  {
    StillFirst(b, rest, ClosingTag(mode), index);
    ScanToClosing(mode, s, index);
  }

  lemma SplitAfter(b: string, rest: string, i: nat, k: nat)
    requires i <= k <= |b|
    ensures (b + rest)[..i] == b[..i] && (b + rest)[k..] == b[k..] + rest
  {
  }

  lemma StillFirst(b: string, rest: string, tag: Tag, index: nat)
    requires At(b, tag, index) && NoneBefore(b, tag.Spelling(), index)
    ensures At(b + rest, tag, index) && NoneBefore(b + rest, tag.Spelling(), index)
  {
    forall i | 0 <= i < index ensures !SpelledAt(b + rest, tag.Spelling(), i) { AtPrefix(b, rest, tag, i); }
    AtPrefix(b, rest, tag, index);
  }

  lemma ScanToClosing(mode: Mode, s: string, index: nat)
    requires !mode.Text? && At(s, ClosingTag(mode), index) && NoneBefore(s, ClosingTag(mode).Spelling(), index)
    ensures Scan(mode, s) == Kept(mode, s[..index]) + Scan(Text, s[index + |ClosingTag(mode).Spelling()|..])
  {
    ScanBlock(mode, s, index);
    ScanClosingLater(mode, s, index);
  }

  lemma ScanClosingLater(mode: Mode, s: string, index: nat)
    requires !mode.Text? && At(s, ClosingTag(mode), index)
    ensures Scan(mode, s[index..]) == Scan(Text, s[index + |ClosingTag(mode).Spelling()|..])
  {
    var n := |ClosingTag(mode).Spelling()|;
    AtShift(s, ClosingTag(mode), index, 0);
    ScanAtClosing(mode, s[index..]);
    assert s[index..][n..] == s[index + n..];
  }

  lemma NoTagBeforeHit(b: string, rest: string, tag: Tag, index: nat, i: nat)
    requires At(b, tag, index) && i < index && NoTagAt(b, i)
    ensures NoTagAt(b + rest, i)
  {
    assert Lower(b[index + 0]) == tag.Spelling()[0] == '<';
    NotBeforeHit(b, rest, OpenTool, index, i);
    NotBeforeHit(b, rest, CloseTool, index, i);
    NotBeforeHit(b, rest, OpenFinal, index, i);
    NotBeforeHit(b, rest, CloseFinal, index, i);
  }

  lemma NotBeforeHit(b: string, rest: string, tag: Tag, index: nat, i: nat)
    requires i < index < |b| && Lower(b[index]) == '<' && !At(b, tag, i)
    ensures !At(b + rest, tag, i)
  {
    if i + |tag.Spelling()| <= |b| {
      AtPrefix(b, rest, tag, i);
    } else if At(b + rest, tag, i) {
      TagsDoNotOverlap(b + rest, tag, i, index);
    }
  }

  /** No tag starts inside another: '<' occurs only at the front of a tag. */
  lemma TagsDoNotOverlap(s: string, tag: Tag, i: nat, k: nat)
    requires At(s, tag, i) && i < k < i + |tag.Spelling()|
    ensures Lower(s[k]) != '<'
  {
    var w := tag.Spelling();
    assert Lower(s[i + (k - i)]) == w[k - i];
  }

  lemma OpenTag(b: string, tag: Tag, index: nat, rest: string)
    requires At(b, tag, index) && forall i :: 0 <= i < index ==> NoTagAt(b, i)
    ensures Scan(Text, b + rest) == b[..index] + Scan(tag.ModeAfter(), b[index + |tag.Spelling()|..] + rest)
  {
    var s := b + rest;
    assert Lower(b[index + 0]) == '<';
    forall i | 0 <= i < index ensures NoTagAt(s, i) { NoTagBeforeHit(b, rest, tag, index, i); }
    AtPrefix(b, rest, tag, index);
    ScanFromTag(s, tag, index);
    assert s[..index] == b[..index];
    assert s[index + |tag.Spelling()|..] == b[index + |tag.Spelling()|..] + rest;
  }

  /** Between two chunks no more is held back than must be: in text mode a proper prefix of a
      tag, inside a block an unfinished block. */
  ghost predicate Settled(mode: Mode, buffer: string) {
    if mode.Text? then TailStartsTag(buffer, |buffer|)
    else NoneBefore(buffer, ClosingTag(mode).Spelling(), |buffer| + 1)
  }

  lemma SettledIsShort(buffer: string)
    requires Settled(Text, buffer)
    ensures |buffer| <= 7 && exists tag: Tag :: TailStarts(buffer, tag, |buffer|)
  {
    assert TailStarts(buffer, OpenTool, |buffer|) || TailStarts(buffer, CloseTool, |buffer|)
        || TailStarts(buffer, OpenFinal, |buffer|) || TailStarts(buffer, CloseFinal, |buffer|);
  }

  /** One round of the loop in `feed`: the text it emits and the state it leaves. */
  datatype Round = Round(out: string, mode: Mode, buffer: string, more: bool)

  function Consume(mode: Mode, buffer: string, final: bool): Round
    requires buffer != ""
  {
    if !mode.Text? then
      BlockRound(mode, buffer, Find(buffer, ClosingTag(mode).Spelling(), 0), final)
    else
      TextRound(buffer, FirstTag(buffer), final)
  }

  function BlockRound(mode: Mode, buffer: string, close: Option<nat>, final: bool): Round
    requires !mode.Text? && (close.Some? ==> close.value + |ClosingTag(mode).Spelling()| <= |buffer|)
  {
    match close
    case None => if final then Round(Kept(mode, buffer), mode, "", false) else Round("", mode, buffer, false)
    case Some(index) => Round(Kept(mode, buffer[..index]), Text, buffer[index + |ClosingTag(mode).Spelling()|..], true)
  }

  function TextRound(buffer: string, hit: Hit, final: bool): Round
    requires hit.Hit? ==> hit.index + |hit.tag.Spelling()| <= |buffer|
  {
    match hit
    case Hit(index, tag) => Round(buffer[..index], tag.ModeAfter(), buffer[index + |tag.Spelling()|..], true)
    case Miss =>
      if final then Round(buffer, Text, "", false)
      else
        var n := |buffer| - Keep(buffer);
        Round(buffer[..n], Text, buffer[n..], false)
  }

  lemma ConsumeMeans(mode: Mode, buffer: string, rest: string)
    requires buffer != ""
    ensures var r := Consume(mode, buffer, false);
      r.out + Scan(r.mode, r.buffer + rest) == Scan(mode, buffer + rest)
  {
    if mode.Text? { ConsumeTextMeans(buffer, rest); } else { ConsumeBlockMeans(mode, buffer, rest); }
  }

  lemma ConsumeBlockMeans(mode: Mode, buffer: string, rest: string)
    requires buffer != "" && !mode.Text?
    ensures var r := Consume(mode, buffer, false);
      r.out + Scan(r.mode, r.buffer + rest) == Scan(mode, buffer + rest)
  {
    FindIsFirst(buffer, ClosingTag(mode).Spelling(), 0);
    BlockRoundMeans(mode, buffer, Find(buffer, ClosingTag(mode).Spelling(), 0), rest);
  }

  lemma BlockRoundMeans(mode: Mode, buffer: string, close: Option<nat>, rest: string)
    requires !mode.Text?
    requires close.Some? ==> At(buffer, ClosingTag(mode), close.value) && NoneBefore(buffer, ClosingTag(mode).Spelling(), close.value)
    ensures var r := BlockRound(mode, buffer, close, false);
      r.out + Scan(r.mode, r.buffer + rest) == Scan(mode, buffer + rest)
  {
    if close.Some? { CloseBlock(mode, buffer, close.value, rest); }
  }

  lemma ConsumeTextMeans(buffer: string, rest: string)
    requires buffer != ""
    ensures var r := Consume(Text, buffer, false);
      r.out + Scan(r.mode, r.buffer + rest) == Scan(Text, buffer + rest)
  {
    FirstTagFound(buffer);
    TextRoundMeans(buffer, FirstTag(buffer), rest);
  }

  lemma TextRoundMeans(buffer: string, hit: Hit, rest: string)
    requires IsFirst(buffer, hit)
    ensures var r := TextRound(buffer, hit, false);
      r.out + Scan(r.mode, r.buffer + rest) == Scan(Text, buffer + rest)
  {
    if hit.Hit? { TextHitMeans(buffer, hit.index, hit.tag, rest); } else { TextMissMeans(buffer, rest); }
  }

  lemma TextHitMeans(buffer: string, index: nat, tag: Tag, rest: string)
    requires IsFirst(buffer, Hit(index, tag))
    ensures var r := TextRound(buffer, Hit(index, tag), false);
      r.out + Scan(r.mode, r.buffer + rest) == Scan(Text, buffer + rest)
  {
    var r := TextRound(buffer, Hit(index, tag), false);
    assert r.out == buffer[..index] && r.mode == tag.ModeAfter() && r.buffer == buffer[index + |tag.Spelling()|..];
    OpenTag(buffer, tag, index, rest);
  }

  lemma TextMissMeans(buffer: string, rest: string)
    requires IsFirst(buffer, Miss)
    ensures var r := TextRound(buffer, Miss, false);
      r.out + Scan(r.mode, r.buffer + rest) == Scan(Text, buffer + rest)
  {
    ScanHeld(buffer, rest);
  }

  lemma ConsumeFinalMeans(mode: Mode, buffer: string)
    requires buffer != ""
    ensures var r := Consume(mode, buffer, true);
      r.out + Scan(r.mode, r.buffer) == Scan(mode, buffer) && (!r.more ==> r.buffer == "")
  {
    var r := Consume(mode, buffer, true);
    if r.more {
      assert Consume(mode, buffer, false) == r;
      ConsumeMeans(mode, buffer, "");
      assert r.buffer + "" == r.buffer && buffer + "" == buffer;
    } else if !mode.Text? {
      FindIsFirst(buffer, ClosingTag(mode).Spelling(), 0);
      ScanBlock(mode, buffer, |buffer|);
      assert buffer[..|buffer|] == buffer && buffer[|buffer|..] == "";
    } else {
      forall i | 0 <= i <= |buffer| ensures NoTagAt(buffer, i) { FirstTagIsFirst(buffer, i); }
      ScanPlain(buffer, |buffer|);
      assert buffer[..|buffer|] == buffer && buffer[|buffer|..] == "";
    }
  }

  lemma TailIsWhole(s: string, tag: Tag, k: nat)
    requires TailStarts(s, tag, k)
    ensures TailStarts(s[|s| - k..], tag, k)
  {
    var tail := s[|s| - k..];
    forall j | 0 <= j < k ensures Lower(tail[|tail| - k + j]) == tag.Spelling()[j] { assert tail[j] == s[|s| - k + j]; }
  }

  lemma ConsumeSettles(mode: Mode, buffer: string)
    requires buffer != ""
    ensures var r := Consume(mode, buffer, false);
      && (r.more ==> |r.buffer| < |buffer|)
      && (!r.more ==> Settled(r.mode, r.buffer))
  {
    if !mode.Text? {
      FindIsFirst(buffer, ClosingTag(mode).Spelling(), 0);
    } else if FirstTag(buffer).Miss? {
      TailSettles(buffer);
    }
  }

  lemma TailSettles(buffer: string)
    requires buffer != ""
    ensures Settled(Text, buffer[|buffer| - Keep(buffer)..])
  {
    var k := Keep(buffer);
    if k != 0 {
      var tag: Tag :| TailStarts(buffer, tag, k);
      TailIsWhole(buffer, tag, k);
    }
  }

  /** Having emitted `out` and being in (mode, buffer) means the same as being in (m, b),
      for every continuation of the text. */
  ghost predicate Means(out: string, mode: Mode, buffer: string, m: Mode, b: string) {
    forall rest: string :: out + Scan(mode, buffer + rest) == Scan(m, b + rest)
  }

  lemma MeansTrans(out1: string, m1: Mode, b1: string, out2: string, m2: Mode, b2: string, m: Mode, b: string)
    requires Means(out1, m1, b1, m, b) && Means(out2, m2, b2, m1, b1)
    ensures Means(out1 + out2, m2, b2, m, b)
  {
    forall rest: string ensures (out1 + out2) + Scan(m2, b2 + rest) == Scan(m, b + rest) {
      assert out1 + (out2 + Scan(m2, b2 + rest)) == (out1 + out2) + Scan(m2, b2 + rest);
      assert out2 + Scan(m2, b2 + rest) == Scan(m1, b1 + rest);
    }
  }

  lemma MeansAt(out: string, mode: Mode, buffer: string, m: Mode, b: string, rest: string)
    requires Means(out, mode, buffer, m, b)
    ensures out + Scan(mode, buffer + rest) == Scan(m, b + rest)
  {
  }

  lemma Assoc(a: string, b: string, c: string)
    ensures a + b + c == a + (b + c)
  {
  }

  /** The meaning of a state with more text appended. */
  lemma MeansMore(out: string, mode: Mode, buffer: string, m: Mode, b: string, more: string)
    requires Means(out, mode, buffer, m, b)
    ensures Means(out, mode, buffer + more, m, b + more)
  {
    forall rest: string ensures out + Scan(mode, buffer + more + rest) == Scan(m, b + more + rest) {
      Assoc(buffer, more, rest);
      Assoc(b, more, rest);
      MeansAt(out, mode, buffer, m, b, more + rest);
    }
  }

  lemma MeansNow(out: string, mode: Mode, buffer: string, m: Mode, b: string)
    requires Means(out, mode, buffer, m, b)
    ensures out + Scan(mode, buffer) == Scan(m, b)
  {
    assert buffer + "" == buffer && b + "" == b;
  }

  lemma MeansSelf(mode: Mode, buffer: string)
    ensures Means("", mode, buffer, mode, buffer)
  {
  }

  lemma ConsumeKeepsMeaning(mode: Mode, buffer: string)
    requires buffer != ""
    ensures var r := Consume(mode, buffer, false); Means(r.out, r.mode, r.buffer, mode, buffer)
  {
    var r := Consume(mode, buffer, false);
    forall rest: string ensures r.out + Scan(r.mode, r.buffer + rest) == Scan(mode, buffer + rest) {
      ConsumeMeans(mode, buffer, rest);
    }
  }

  class LegacyProtocolFilter {
    var mode: Mode
    var buffer: string

    constructor ()
      ensures mode == Text && buffer == ""
    {
      mode := Text;
      buffer := "";
    }

    /** A non-final feed: the emitted text and the new state together mean what the old state
        and the chunk meant, for every continuation. */
    method FeedChunk(value: string) returns (out: string)
      modifies this
      ensures Means(out, mode, buffer, old(mode), old(buffer) + value)
      ensures buffer == "" || Settled(mode, buffer)
    {
      buffer := buffer + value;
      out := "";
      ghost var m, b := mode, buffer;
      var more := true;
      MeansSelf(mode, buffer);
      while buffer != "" && more
        invariant Means(out, mode, buffer, m, b)
        invariant !more ==> Settled(mode, buffer)
        decreases more, |buffer|
      {
        var r := Consume(mode, buffer, false);
        ConsumeSettles(mode, buffer);
        ConsumeKeepsMeaning(mode, buffer);
        MeansTrans(out, mode, buffer, r.out, r.mode, r.buffer, m, b);
        out := out + r.out;
        mode, buffer, more := r.mode, r.buffer, r.more;
      }
    }

    /** A final feed emits the whole meaning of the old state and the chunk. */
    method FeedFinal(value: string) returns (out: string)
      modifies this
      ensures out == Scan(old(mode), old(buffer) + value) && buffer == ""
    {
      buffer := buffer + value;
      out := "";
      ghost var whole := Scan(mode, buffer);
      var more := true;
      while buffer != "" && more
        invariant out + Scan(mode, buffer) == whole
        invariant !more ==> buffer == ""
        decreases more, |buffer|
      {
        var r := Consume(mode, buffer, true);
        ConsumeFinalMeans(mode, buffer);
        ConsumeSettles(mode, buffer);
        assert out + (r.out + Scan(r.mode, r.buffer)) == (out + r.out) + Scan(r.mode, r.buffer);
        out := out + r.out;
        mode, buffer, more := r.mode, r.buffer, r.more;
      }
    }

    method Feed(value: string, final: bool) returns (out: string)
      modifies this
      ensures final ==> out == Scan(old(mode), old(buffer) + value) && buffer == ""
      ensures !final ==> Means(out, mode, buffer, old(mode), old(buffer) + value)
      ensures !final && mode.Text? ==> |buffer| <= 7
      ensures !final ==> buffer == "" || Settled(mode, buffer)
    {
      if final {
        out := FeedFinal(value);
      } else {
        out := FeedChunk(value);
        if mode.Text? && buffer != "" { SettledIsShort(buffer); }
      }
    }

    /** Flush what is held back at the end of the stream. */
    method Finish() returns (out: string)
      modifies this
      ensures out == Scan(old(mode), old(buffer)) && buffer == ""
    {
      assert old(buffer) + "" == old(buffer);
      out := Feed("", true);
    }
  }

  function Concat(chunks: seq<string>): string {
    if chunks == [] then "" else Concat(chunks[..|chunks| - 1]) + chunks[|chunks| - 1]
  }

  lemma ConcatSnoc(chunks: seq<string>, i: nat)
    requires i < |chunks|
    ensures Concat(chunks[..i + 1]) == Concat(chunks[..i]) + chunks[i]
  {
    assert chunks[..i + 1][..i] == chunks[..i];
  }

  lemma {:induction false} FeedMeans(out: string, m: Mode, b: string, chunk: string, piece: string, m2: Mode, b2: string, seen: string)
    requires Means(out, m, b, Text, seen) && Means(piece, m2, b2, m, b + chunk)
    ensures Means(out + piece, m2, b2, Text, seen + chunk)
  {
    MeansMore(out, m, b, Text, seen, chunk);
    MeansTrans(out, m, b + chunk, piece, m2, b2, Text, seen + chunk);
  }

  /** Chunk independence: however a text is cut, feeding the pieces and finishing emits what
      the scanner reads off the whole text, and so what one final feed of it emits. */
  method FilterStream(chunks: seq<string>) returns (out: string)
    ensures out == Scan(Text, Concat(chunks))
  {
    var filter := new LegacyProtocolFilter();
    out := "";
    var i := 0;
    MeansSelf(Text, "");
    while i < |chunks|
      invariant 0 <= i <= |chunks|
      invariant Means(out, filter.mode, filter.buffer, Text, Concat(chunks[..i]))
    {
      ghost var m, b, seen := filter.mode, filter.buffer, Concat(chunks[..i]);
      ConcatSnoc(chunks, i);
      var piece := filter.Feed(chunks[i], false);
      FeedMeans(out, m, b, chunks[i], piece, filter.mode, filter.buffer, seen);
      out := out + piece;
      i := i + 1;
    }
    assert chunks[..i] == chunks;
    MeansNow(out, filter.mode, filter.buffer, Text, Concat(chunks));
    var tail := filter.Finish();
    out := out + tail;
  }

  /** `_public_assistant_content` before stripping: one final feed of the whole text. */
  method FilterWhole(text: string) returns (out: string)
    ensures out == Scan(Text, text)
  {
    var filter := new LegacyProtocolFilter();
    assert "" + text == text;
    out := filter.Feed(text, true);
  }
}
