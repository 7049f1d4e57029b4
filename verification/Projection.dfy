/**
 * The active projection of a session (core/coding/runtime.py): the canonical transcript, or a checkpoint's
 * summary and the items after it, kept in step with the transcript as messages are appended.
 */
module Projection {
  import opened Options

  datatype Role = User | Assistant | Tool | System(summary: bool)

  /** What the store compares on a repeated message id, and what a history item carries. */
  datatype Message = Message(id: string, role: Role, content: string)

  datatype Item = Item(sequence: Option<int>, message: Message)

  datatype Checkpoint = Checkpoint(start: int, end: int, summary: string, evidenceHash: int, prefixHash: int)

  /** The two digests, unknown functions of the items they cover. */
  datatype Digests = Digests(evidence: seq<Item> -> int, prefix: seq<Item> -> int)

  // ---- The transcript store: row i has sequence i + 1 ----

  function Row(rows: seq<Message>, i: nat): Item
    requires i < |rows|
  {
    Item(Some(i + 1), rows[i])
  }

  function ReadAll(rows: seq<Message>): (items: seq<Item>)
    ensures |items| == |rows| && forall i | 0 <= i < |rows| :: items[i] == Row(rows, i)
  {
    seq(|rows|, i requires 0 <= i < |rows| => Row(rows, i))
  }

  /** Rows with `start <= sequence <= end`. */
  function ReadRange(rows: seq<Message>, start: int, end: int): seq<Item>
    requires 1 <= start <= end
  {
    if start > |rows| then [] else ReadAll(rows)[start - 1..if end < |rows| then end else |rows|]
  }

  /** The row holding a message id, if any. */
  function Find(rows: seq<Message>, id: string): (r: Option<nat>)
    ensures r.Some? ==> r.value < |rows| && rows[r.value].id == id
    ensures r.None? ==> forall i | 0 <= i < |rows| :: rows[i].id != id
  {
    if rows == [] then None
    else
      var front := Find(rows[..|rows| - 1], id);
      if front.Some? then front else if rows[|rows| - 1].id == id then Some(|rows| - 1) else None
  }

  datatype Stored = Inserted(sequence: int) | Existing(sequence: int) | Conflict

  function Store(rows: seq<Message>, m: Message): Stored {
    var found := Find(rows, m.id);
    if found.None? then Inserted(|rows| + 1)
    else if rows[found.value] == m then Existing(found.value + 1)
    else Conflict
  }

  // ---- Restoring ----

  function Numbered(items: seq<Item>): seq<Item> {
    if items == [] then []
    else
      var last := items[|items| - 1];
      Numbered(items[..|items| - 1]) + if last.sequence.Some? then [last] else []
  }

  /** The items with a sequence above `k`, in order. */
  function Above(items: seq<Item>, k: int): seq<Item> {
    if items == [] then []
    else
      var last := items[|items| - 1];
      Above(items[..|items| - 1], k) + if last.sequence.Some? && last.sequence.value > k then [last] else []
  }

  /** The system items before the first user message, old summaries left out. */
  function Prefix(items: seq<Item>): seq<Item> {
    if items == [] || items[0].message.role.User? then []
    else (if items[0].message.role == System(false) then [items[0]] else []) + Prefix(items[1..])
  }

  predicate Contiguous(items: seq<Item>) {
    forall i | 0 <= i < |items| :: items[i].sequence == Some(i + 1)
  }

  predicate RunsFrom(items: seq<Item>, start: int, end: int) {
    |items| == end - start + 1 && forall i | 0 <= i < |items| :: items[i].sequence == Some(start + i)
  }

  predicate Matches(c: Checkpoint, canonical: seq<Item>, rows: seq<Message>, d: Digests) {
    && 1 <= c.start <= c.end
    && canonical != [] && Contiguous(canonical)
    && c.end <= |canonical|
    && var evidence := ReadRange(rows, c.start, c.end);
    && RunsFrom(evidence, c.start, c.end)
    && d.evidence(evidence) == c.evidenceHash
    && d.prefix(Prefix(canonical)) == c.prefixHash
  }

  function SummaryItem(c: Checkpoint): Item { Item(None, Message("", System(true), c.summary)) }

  /** The histories as values: the stored rows, the canonical items, the projection. */
  datatype View = View(rows: seq<Message>, history: seq<Item>, projection: seq<Item>)

  /** The transcript is what the store holds, and the projection's numbered items are the canonical ones above `k`. */
  predicate InStep(v: View, k: int) {
    && v.history == ReadAll(v.rows)
    && 0 <= k <= |v.history|
    && Numbered(v.projection) == Above(v.history, k)
  }

  function Append(v: View, m: Message, appendActive: bool): View {
    match Store(v.rows, m)
    case Conflict => v
    case Inserted(n) => View(v.rows + [m], v.history + [Item(Some(n), m)], v.projection + if appendActive then [Item(Some(n), m)] else [])
    case Existing(n) => View(v.rows, v.history + [Item(Some(n), m)], v.projection + if appendActive then [Item(Some(n), m)] else [])
  }

  // ---- The session ----

  datatype Resume = Disabled | Fallback | Restored

  class Session {
    const digests: Digests
    var rows: seq<Message>
    var history: seq<Item>
    var projection: seq<Item>
    var checkpoint: Option<Checkpoint>

    /** A session whose transcript has been read back from its store. */
    constructor (digests: Digests, rows: seq<Message>)
      ensures this.digests == digests && this.rows == rows && history == ReadAll(rows) && projection == [] && checkpoint == None
    {
      this.digests, this.rows, history := digests, rows, ReadAll(rows);
      projection, checkpoint := [], None;
    }

    /** Where the projection takes over from the checkpoint's summary. */
    function Start(): int
      reads this
    {
      if checkpoint.Some? then checkpoint.value.end else 0
    }

    function Contents(): View
      reads this
    {
      View(rows, history, projection)
    }

    method CheckpointMatches(c: Checkpoint, canonical: seq<Item>) returns (ok: bool)
      ensures ok == Matches(c, canonical, rows, digests)
    {
      if c.start < 1 || c.end < c.start || canonical == [] {
        return false;
      }
      var i := 0;
      while i < |canonical|
        invariant 0 <= i <= |canonical| && forall j | 0 <= j < i :: canonical[j].sequence == Some(j + 1)
      {
        if canonical[i].sequence != Some(i + 1) {
          return false;
        }
        i := i + 1;
      }
      if c.end > |canonical| {
        return false;
      }
      var evidence := ReadRange(rows, c.start, c.end);
      if !RunsFrom(evidence, c.start, c.end) || digests.evidence(evidence) != c.evidenceHash {
        return false;
      }
      var prefix := PrefixOf(canonical);
      ok := digests.prefix(prefix) == c.prefixHash;
    }

    method PrefixOf(canonical: seq<Item>) returns (prefix: seq<Item>)
      ensures prefix == Prefix(canonical)
    {
      prefix := [];
      var i := 0;
      while i < |canonical| && !canonical[i].message.role.User?
        invariant 0 <= i <= |canonical| && Prefix(canonical) == prefix + Prefix(canonical[i..])
      {
        assert canonical[i..][1..] == canonical[i + 1..];
        if canonical[i].message.role == System(false) {
          prefix := prefix + [canonical[i]];
        }
        i := i + 1;
      }
    }

    method Restore(enabled: bool, latest: Option<Checkpoint>) returns (status: Resume)
      requires history == ReadAll(rows)
      modifies this`projection, this`checkpoint
      ensures InStep(Contents(), Start())
      ensures status == if !enabled then Disabled else if latest.Some? && Matches(latest.value, history, rows, digests) then Restored else Fallback
      ensures checkpoint == if status.Restored? then latest else None
      ensures projection == if status.Restored? then [SummaryItem(latest.value)] + Above(history, latest.value.end) else history
    {
      checkpoint, projection := None, history;
      AboveZero(history);
      if !enabled {
        return Disabled;
      }
      if latest.None? {
        return Fallback;
      }
      var ok := CheckpointMatches(latest.value, history);
      if !ok {
        return Fallback;
      }
      var tail := TailAfter(latest.value.end);
      SummaryIsNotNumbered(latest.value, history);
      checkpoint := latest;
      projection := [SummaryItem(latest.value)] + tail;
      status := Restored;
    }

    method TailAfter(end: int) returns (tail: seq<Item>)
      ensures tail == Above(history, end)
    {
      tail := [];
      var i := 0;
      while i < |history|
        invariant 0 <= i <= |history| && tail == Above(history[..i], end)
      {
        assert history[..i + 1][..i] == history[..i];
        if history[i].sequence.Some? && history[i].sequence.value > end {
          tail := tail + [history[i]];
        }
        i := i + 1;
      }
      assert history[..i] == history;
    }

    /** Append to the store and both histories; a repeated id keeps its old number or is refused. */
    method AppendCanonical(m: Message, appendActive: bool) returns (stored: Stored)
      modifies this`rows, this`history, this`projection
      ensures stored == Store(old(rows), m)
      ensures Contents() == Append(old(Contents()), m, appendActive)
    {
      stored := Store(rows, m);
      if stored.Conflict? {
        return;
      }
      if stored.Inserted? {
        rows := rows + [m];
      }
      var item := Item(Some(stored.sequence), m);
      history := history + [item];
      if appendActive {
        projection := projection + [item];
      }
    }

    /** First and last number of the projection. */
    method ActiveRange() returns (range: Option<(int, int)>)
      ensures range == RangeOf(projection)
    {
      var sequences: seq<int> := [];
      var i := 0;
      while i < |projection|
        invariant 0 <= i <= |projection| && sequences == Sequences(Numbered(projection[..i]))
      {
        assert projection[..i + 1][..i] == projection[..i];
        if projection[i].sequence.Some? {
          SequencesSnoc(Numbered(projection[..i]), projection[i]);
          sequences := sequences + [projection[i].sequence.value];
        }
        i := i + 1;
      }
      assert projection[..i] == projection;
      range := if sequences == [] then None else Some((sequences[0], sequences[|sequences| - 1]));
    }
  }

  function Sequences(items: seq<Item>): seq<int> {
    seq(|items|, i requires 0 <= i < |items| => if items[i].sequence.Some? then items[i].sequence.value else 0)
  }

  lemma SequencesSnoc(items: seq<Item>, item: Item)
    requires item.sequence.Some?
    ensures Sequences(items + [item]) == Sequences(items) + [item.sequence.value]
  {}

  function RangeOf(projection: seq<Item>): Option<(int, int)> {
    var s := Sequences(Numbered(projection));
    if s == [] then None else Some((s[0], s[|s| - 1]))
  }

  // ---- Lemmas ----

  lemma {:induction false} NumberedConcat(a: seq<Item>, b: seq<Item>)
    ensures Numbered(a + b) == Numbered(a) + Numbered(b)
    decreases |b|
  {
    if b == [] {
      assert a + b == a;
    } else {
      assert (a + b)[..|a + b| - 1] == a + b[..|b| - 1];
      NumberedConcat(a, b[..|b| - 1]);
    }
  }

  lemma {:induction false} NumberedAbove(items: seq<Item>, k: int)
    ensures Numbered(Above(items, k)) == Above(items, k)
  {
    if items != [] {
      var n := |items| - 1;
      NumberedAbove(items[..n], k);
      var last := if items[n].sequence.Some? && items[n].sequence.value > k then [items[n]] else [];
      NumberedConcat(Above(items[..n], k), last);
      if last != [] {
        assert last[..0] == [];
      }
    }
  }

  /** In a contiguous transcript the items above `k` are the slice after the first `k`. */
  lemma {:induction false} AboveIsSlice(items: seq<Item>, k: int)
    requires Contiguous(items) && 0 <= k <= |items|
    ensures Above(items, k) == items[k..]
  {
    if items != [] {
      var n := |items| - 1;
      assert items[n].sequence == Some(n + 1);
      if k <= n {
        AboveIsSlice(items[..n], k);
        assert items[..n][k..] + [items[n]] == items[k..];
      } else {
        NothingAbove(items, k);
      }
    }
  }

  lemma {:induction false} NothingAbove(items: seq<Item>, k: int)
    requires forall i | 0 <= i < |items| :: items[i].sequence.Some? ==> items[i].sequence.value <= k
    ensures Above(items, k) == []
  {
    if items != [] {
      assert items[|items| - 1].sequence.Some? ==> items[|items| - 1].sequence.value <= k;
      NothingAbove(items[..|items| - 1], k);
    }
  }

  lemma SummaryIsNotNumbered(c: Checkpoint, items: seq<Item>)
    ensures Numbered([SummaryItem(c)] + Above(items, c.end)) == Above(items, c.end)
  {
    NumberedAbove(items, c.end);
    NumberedConcat([SummaryItem(c)], Above(items, c.end));
    assert [SummaryItem(c)][..0] == [];
  }

  lemma AboveZero(items: seq<Item>)
    requires Contiguous(items)
    ensures Above(items, 0) == items && Numbered(items) == items
  {
    AboveIsSlice(items, 0);
    NumberedAbove(items, 0);
  }

  // ---- The theorems ----

  lemma ReadAllSnoc(rows: seq<Message>, m: Message)
    ensures ReadAll(rows + [m]) == ReadAll(rows) + [Item(Some(|rows| + 1), m)]
  {}

  lemma AboveSnoc(items: seq<Item>, item: Item, k: int)
    requires item.sequence.Some?
    ensures Above(items + [item], k) == Above(items, k) + if item.sequence.value > k then [item] else []
  {
    assert (items + [item])[..|items|] == items;
  }

  lemma NumberedSnoc(items: seq<Item>, item: Item)
    requires item.sequence.Some?
    ensures Numbered(items + [item]) == Numbered(items) + [item]
  {
    assert (items + [item])[..|items|] == items;
  }

  lemma InsertKeepsStep(v: View, k: int, m: Message)
    requires InStep(v, k) && Store(v.rows, m).Inserted?
    ensures InStep(Append(v, m, true), k)
  {
    var item := Item(Some(|v.rows| + 1), m);
    ReadAllSnoc(v.rows, m);
    AboveSnoc(v.history, item, k);
    NumberedSnoc(v.projection, item);
  }

  /** One append keeps the two in step exactly when it inserts into both, or is refused. */
  lemma AppendKeepsStepIff(v: View, k: int, m: Message, appendActive: bool)
    requires InStep(v, k)
    ensures InStep(Append(v, m, appendActive), k) <==> Store(v.rows, m).Conflict? || (Store(v.rows, m).Inserted? && appendActive)
  {
    if Store(v.rows, m).Inserted? {
      var item := Item(Some(|v.rows| + 1), m);
      if appendActive {
        InsertKeepsStep(v, k, m);
      } else {
        AboveSnoc(v.history, item, k);
        assert |Above(v.history + [item], k)| == |Above(v.history, k)| + 1;
        assert v.projection + [] == v.projection;
      }
    } else if Store(v.rows, m).Existing? {
      var w := Append(v, m, appendActive);
      assert |w.history| == |w.rows| + 1;
    }
  }

  function AppendAll(v: View, ms: seq<Message>): View {
    if ms == [] then v else Append(AppendAll(v, ms[..|ms| - 1]), ms[|ms| - 1], true)
  }

  /** No message of the run was found in the store already. */
  predicate NoneRepeated(v: View, ms: seq<Message>) {
    ms == [] || (NoneRepeated(v, ms[..|ms| - 1]) && !Store(AppendAll(v, ms[..|ms| - 1]).rows, ms[|ms| - 1]).Existing?)
  }

  /** A repeated message leaves the history longer than the store for good. */
  lemma {:induction false} RepeatsShow(v: View, ms: seq<Message>)
    requires |v.history| == |v.rows|
    ensures var w := AppendAll(v, ms);
            |w.history| >= |w.rows| && (|w.history| == |w.rows| <==> NoneRepeated(v, ms))
    decreases |ms|
  {
    if ms != [] {
      RepeatsShow(v, ms[..|ms| - 1]);
    }
  }

  lemma {:induction false} FreshRunKeepsStep(v: View, k: int, ms: seq<Message>)
    requires InStep(v, k) && NoneRepeated(v, ms)
    ensures InStep(AppendAll(v, ms), k)
    decreases |ms|
  {
    if ms != [] {
      var n := |ms| - 1;
      FreshRunKeepsStep(v, k, ms[..n]);
      AppendKeepsStepIff(AppendAll(v, ms[..n]), k, ms[n], true);
    }
  }

  /**
   * After any run of appends the projection still is the transcript above the checkpoint exactly when no append
   * met a message that was already stored.
   */
  lemma RunKeepsStepIff(v: View, k: int, ms: seq<Message>)
    requires InStep(v, k)
    ensures InStep(AppendAll(v, ms), k) <==> NoneRepeated(v, ms)
  {
    RepeatsShow(v, ms);
    if NoneRepeated(v, ms) {
      FreshRunKeepsStep(v, k, ms);
    }
  }

  lemma InStepIsContiguous(v: View, k: int)
    requires InStep(v, k)
    ensures Contiguous(v.history) && Numbered(v.projection) == v.history[k..]
  {
    AboveIsSlice(v.history, k);
  }

  /** In step, the active range is (k + 1, n), or none when nothing follows the checkpoint. */
  lemma RangeIsTheTail(v: View, k: int)
    requires InStep(v, k)
    ensures RangeOf(v.projection) == if k == |v.history| then None else Some((k + 1, |v.history|))
  {
    InStepIsContiguous(v, k);
    var tail := v.history[k..];
    if k < |v.history| {
      assert tail[0] == v.history[k] && tail[|tail| - 1] == v.history[|v.history| - 1];
    }
  }

  /** Messages with new and pairwise different ids are never found in the store. */
  lemma {:induction false} NewIdsAreNotRepeated(v: View, ms: seq<Message>)
    requires forall i, j | 0 <= i < |ms| && 0 <= j < |v.rows| :: ms[i].id != v.rows[j].id
    requires forall i, j | 0 <= i < j < |ms| :: ms[i].id != ms[j].id
    ensures NoneRepeated(v, ms)
    ensures AppendAll(v, ms).rows == v.rows + ms
    decreases |ms|
  {
    if ms == [] {
      assert v.rows + ms == v.rows;
    } else {
      var n := |ms| - 1;
      NewIdsAreNotRepeated(v, ms[..n]);
      var rows := AppendAll(v, ms[..n]).rows;
      forall j | 0 <= j < |rows| ensures rows[j].id != ms[n].id {
        if j >= |v.rows| {
          assert rows[j] == ms[j - |v.rows|];
        }
      }
      assert Store(rows, ms[n]).Inserted?;
      assert v.rows + ms[..n] + [ms[n]] == v.rows + ms;
    }
  }

  /** A message sent twice: the transcript is 1, 2, 1 and the active range shrinks to (1, 1). */
  lemma RepeatedMessageShrinksTheRange()
    ensures var a, b := Message("a", User, "x"), Message("b", User, "y");
            var v := View([a, b], ReadAll([a, b]), ReadAll([a, b]));
            InStep(v, 0) && RangeOf(Append(v, a, true).projection) == Some((1, 1))
  {
    var a, b := Message("a", User, "x"), Message("b", User, "y");
    var v := View([a, b], ReadAll([a, b]), ReadAll([a, b]));
    AboveZero(v.history);
    assert [a, b][..1] == [a] && [a][..0] == [];
    assert Find([a], "a") == Some(0);
    assert Store([a, b], a) == Existing(1);
    NumberedSnoc(v.projection, Item(Some(1), a));
  }
}
