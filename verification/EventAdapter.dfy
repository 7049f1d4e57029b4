/** The stateful adapter: tool-call bookkeeping and the text filter, one stream item at a time. */
module EventAdapter {
  import opened ToolCalls
  import PF = ProtocolFilter
  import opened Options

  function DeltaText(events: seq<Event>): string {
    if events == [] then ""
    else DeltaText(events[..|events| - 1]) + (if events[|events| - 1].TextDelta? then events[|events| - 1].text else "")
  }

  function WithoutText(events: seq<Event>): seq<Event> {
    if events == [] then []
    else WithoutText(events[..|events| - 1]) + (if events[|events| - 1].TextDelta? then [] else [events[|events| - 1]])
  }

  /** The assistant text of a stream, as the model produced it. */
  function AiTexts(items: seq<Item>): string {
    if items == [] then ""
    else AiTexts(items[..|items| - 1]) + (if items[|items| - 1].AiText? then items[|items| - 1].content else "")
  }

  ghost predicate NoText(events: seq<Event>) {
    forall i :: 0 <= i < |events| ==> !events[i].TextDelta?
  }

  lemma {:induction false} NoTextSplits(events: seq<Event>)
    requires NoText(events)
    ensures DeltaText(events) == "" && WithoutText(events) == events
    decreases |events|
  {
    if events != [] {
      NoTextSplits(events[..|events| - 1]);
    }
  }

  lemma {:induction false} DeltaTextConcat(a: seq<Event>, b: seq<Event>)
    ensures DeltaText(a + b) == DeltaText(a) + DeltaText(b)
    decreases |b|
  {
    if b == [] {
      assert a + b == a;
    } else {
      DeltaTextConcat(a, b[..|b| - 1]);
      assert (a + b)[..|a + b| - 1] == a + b[..|b| - 1];
    }
  }

  lemma {:induction false} WithoutTextConcat(a: seq<Event>, b: seq<Event>)
    ensures WithoutText(a + b) == WithoutText(a) + WithoutText(b)
    decreases |b|
  {
    if b == [] {
      assert a + b == a;
    } else {
      WithoutTextConcat(a, b[..|b| - 1]);
      assert (a + b)[..|a + b| - 1] == a + b[..|b| - 1];
    }
  }

  lemma Snoc(s: State, items: seq<Item>, i: nat)
    requires i < |items|
    ensures var before := AdaptAll(s, items[..i]);
      var last := Adapt(before.state, items[i]);
      AdaptAll(s, items[..i + 1]) == Effect(last.state, before.events + last.events)
    ensures AiTexts(items[..i + 1]) == AiTexts(items[..i]) + (if items[i].AiText? then items[i].content else "")
  {
    assert items[..i + 1][..i] == items[..i];
  }

  lemma OneDelta(text: string)
    ensures DeltaText([TextDelta(text)]) == text && WithoutText([TextDelta(text)]) == []
  {
    assert [TextDelta(text)][..0] == [];
  }

  lemma CallNoText(s: State, call: Call)
    ensures NoText(TakePending(s, call.id, call.tool).events) && NoText(AnnounceCall(s, call).events)
  {
  }

  lemma BudgetNoText(s: State, usage: Option<string>, stop: Option<Stop>)
    ensures NoText(AnnounceBudget(s, usage, stop).events)
  {
  }

  lemma AdaptNoText(s: State, item: Item)
    ensures NoText(Adapt(s, item).events)
  {
    match item
    case Values(usage, stop, approval) =>
      BudgetNoText(s, usage, stop);
      if approval.Some? { CallNoText(AnnounceBudget(s, usage, stop).state, approval.value); }
    case ToolMessage(id, tool, _) => CallNoText(s, Call(id, tool, 0));
    case CustomToolCall(call) => CallNoText(s, call);
    case CustomToolResult(call, _) => CallNoText(s, call);
    case _ =>
  }

  class HarnessEventAdapter {
    var seenModelToolCalls: set<string>
    var pendingModelToolCalls: seq<Call>
    var customToolResults: set<(string, string)>
    var seenBudgetStops: set<Stop>
    var seenBudgetUsages: set<string>
    const assistantFilter: PF.LegacyProtocolFilter

    ghost function Books(): State
      reads this
    {
      State(seenModelToolCalls, pendingModelToolCalls, customToolResults, seenBudgetStops, seenBudgetUsages)
    }

    constructor (seenToolCallIds: set<string>)
      ensures Books() == State(seenToolCallIds - {""}, [], {}, {}, {})
      ensures fresh(assistantFilter) && assistantFilter.mode == PF.Text && assistantFilter.buffer == ""
    {
      seenModelToolCalls := seenToolCallIds - {""};
      pendingModelToolCalls := [];
      customToolResults := {};
      seenBudgetStops := {};
      seenBudgetUsages := {};
      assistantFilter := new PF.LegacyProtocolFilter();
    }

    /** The loop of `_messages` over the calls of one model message. */
    method RegisterCalls(calls: seq<Option<Call>>)
      modifies this
      ensures Books() == RegisterAll(old(Books()), calls)
    {
      var i := 0;
      while i < |calls|
        invariant 0 <= i <= |calls|
        invariant Books() == RegisterAll(old(Books()), calls[..i])
      {
        var entry := calls[i];
        assert calls[..i + 1][..i] == calls[..i];
        if entry.Some? && entry.value.tool != "" && entry.value.id != "" && entry.value.id !in seenModelToolCalls {
          pendingModelToolCalls := Put(pendingModelToolCalls, entry.value);
        }
        i := i + 1;
      }
      assert calls[..i] == calls;
    }

    method TakePendingToolCall(id: string, tool: string) returns (events: seq<Event>)
      modifies this`pendingModelToolCalls, this`seenModelToolCalls
      ensures Effect(Books(), events) == TakePending(old(Books()), id, tool)
    {
      var i := PendingIndex(pendingModelToolCalls, id, tool);
      if i == |pendingModelToolCalls| {
        return [];
      }
      var call := pendingModelToolCalls[i];
      pendingModelToolCalls := Remove(pendingModelToolCalls, i);
      if call.id in seenModelToolCalls {
        return [];
      }
      seenModelToolCalls := seenModelToolCalls + {call.id};
      return [ToolCall(call)];
    }

    method ToolCallEvent(call: Call) returns (events: seq<Event>)
      modifies this`pendingModelToolCalls, this`seenModelToolCalls
      ensures Effect(Books(), events) == AnnounceCall(old(Books()), call)
    {
      events := TakePendingToolCall(call.id, call.tool);
      if events != [] {
        return;
      }
      if call.id == "" || call.tool == "" || call.id in seenModelToolCalls {
        return;
      }
      seenModelToolCalls := seenModelToolCalls + {call.id};
      events := [ToolCall(call)];
    }

    method BudgetEvents(stop: Stop) returns (events: seq<Event>)
      modifies this`pendingModelToolCalls, this`seenBudgetStops
      ensures Effect(Books(), events) == AnnounceStop(old(Books()), stop)
    {
      if stop.reason !in NOTICES || stop in seenBudgetStops {
        return [];
      }
      seenBudgetStops := seenBudgetStops + {stop};
      pendingModelToolCalls := [];
      return [BudgetStop(stop), BudgetNotice(stop.reason)];
    }

    method ValuesEvents(usage: Option<string>, stop: Option<Stop>, approval: Option<Call>) returns (events: seq<Event>)
      modifies this
      ensures Effect(Books(), events) == Adapt(old(Books()), Values(usage, stop, approval))
    {
      events := [];
      if usage.Some? && usage.value !in seenBudgetUsages {
        seenBudgetUsages := seenBudgetUsages + {usage.value};
        events := [BudgetUsage(usage.value)];
      }
      var more := [];
      if stop.Some? {
        more := BudgetEvents(stop.value);
      }
      events := events + more;
      if approval.Some? {
        more := ToolCallEvent(approval.value);
        events := events + more + [Approval(approval.value)];
      }
      events := events + [Other];
    }

    method ToolEvents(item: Item) returns (events: seq<Event>)
      requires item.ToolMessage? || item.CustomToolCall? || item.CustomToolResult?
      modifies this
      ensures Effect(Books(), events) == Adapt(old(Books()), item)
    {
      match item
      case ToolMessage(id, tool, content) =>
        if (tool, content) in customToolResults {
          customToolResults := customToolResults - {(tool, content)};
          return [];
        }
        events := TakePendingToolCall(id, tool);
        events := events + [ToolResult(id, tool, content)];
      case CustomToolCall(call) => events := ToolCallEvent(call);
      case CustomToolResult(call, content) =>
        events := ToolCallEvent(call);
        customToolResults := customToolResults + {(call.tool, content)};
        events := events + [ToolResult(call.id, call.tool, content)];
    }

    /** One stream item: the bookkeeping follows `Adapt`, and only assistant text moves the
        filter, whose emitted deltas carry its meaning forward. */
    method AdaptItem(item: Item) returns (events: seq<Event>)
      modifies this, assistantFilter
      ensures Effect(Books(), WithoutText(events)) == Adapt(old(Books()), item)
      ensures item.AiText? ==>
        PF.Means(DeltaText(events), assistantFilter.mode, assistantFilter.buffer, old(assistantFilter.mode), old(assistantFilter.buffer) + item.content)
      ensures !item.AiText? ==> DeltaText(events) == "" && unchanged(assistantFilter)
    {
      AdaptNoText(Books(), item);
      if item.AiText? {
        var text := assistantFilter.Feed(item.content, false);
        OneDelta(text);
        if text == "" { return []; }
        return [TextDelta(text)];
      }
      if item.AiToolCalls? {
        RegisterCalls(item.calls);
        events := [];
      } else if item.Values? {
        events := ValuesEvents(item.usage, item.lastStop, item.approval);
      } else if item.CustomStop? {
        events := BudgetEvents(item.stop);
      } else if item.OtherItem? {
        events := [Other];
      } else {
        events := ToolEvents(item);
      }
      NoTextSplits(events);
    }

    /** Flush the filter when the graph stream closes. */
    method Finish() returns (events: seq<Event>)
      modifies assistantFilter
      ensures WithoutText(events) == [] && DeltaText(events) == PF.Scan(old(assistantFilter.mode), old(assistantFilter.buffer))
    {
      var text := assistantFilter.Finish();
      OneDelta(text);
      if text == "" { return []; }
      return [TextDelta(text)];
    }
  }

  /** Progress of a stream: the first i items have been adapted into `events`. */
  ghost predicate Adapted(s0: State, items: seq<Item>, events: seq<Event>, books: State, m: PF.Mode, b: string) {
    && Effect(books, WithoutText(events)) == AdaptAll(s0, items)
    && PF.Means(DeltaText(events), m, b, PF.Text, AiTexts(items))
  }

  lemma TextStep(items: seq<Item>, i: nat, text: string, m: PF.Mode, b: string, more: string, m': PF.Mode, b': string)
    requires i < |items| && PF.Means(text, m, b, PF.Text, AiTexts(items[..i]))
    requires items[i].AiText? ==> PF.Means(more, m', b', m, b + items[i].content)
    requires !items[i].AiText? ==> more == "" && m' == m && b' == b
    ensures PF.Means(text + more, m', b', PF.Text, AiTexts(items[..i + 1]))
  {
    Snoc(State({}, [], {}, {}, {}), items, i);
    if items[i].AiText? {
      PF.FeedMeans(text, m, b, items[i].content, more, m', b', AiTexts(items[..i]));
    } else {
      assert text + more == text;
      assert AiTexts(items[..i]) + "" == AiTexts(items[..i]);
    }
  }

  lemma BooksStep(s0: State, items: seq<Item>, i: nat, events: seq<Event>, books: State, piece: seq<Event>, books': State)
    requires i < |items| && Effect(books, WithoutText(events)) == AdaptAll(s0, items[..i])
    requires Effect(books', WithoutText(piece)) == Adapt(books, items[i])
    ensures Effect(books', WithoutText(events + piece)) == AdaptAll(s0, items[..i + 1])
  {
    Snoc(s0, items, i);
    WithoutTextConcat(events, piece);
  }

  lemma AdaptedStep(s0: State, items: seq<Item>, i: nat, events: seq<Event>, books: State, m: PF.Mode, b: string,
                    piece: seq<Event>, books': State, m': PF.Mode, b': string)
    requires i < |items| && Adapted(s0, items[..i], events, books, m, b)
    requires Effect(books', WithoutText(piece)) == Adapt(books, items[i])
    requires items[i].AiText? ==> PF.Means(DeltaText(piece), m', b', m, b + items[i].content)
    requires !items[i].AiText? ==> DeltaText(piece) == "" && m' == m && b' == b
    ensures Adapted(s0, items[..i + 1], events + piece, books', m', b')
  {
    BooksStep(s0, items, i, events, books, piece, books');
    DeltaTextConcat(events, piece);
    TextStep(items, i, DeltaText(events), m, b, DeltaText(piece), m', b');
  }

  lemma AdaptedEnd(s0: State, items: seq<Item>, events: seq<Event>, books: State, m: PF.Mode, b: string, tail: seq<Event>)
    requires Adapted(s0, items, events, books, m, b)
    requires WithoutText(tail) == [] && DeltaText(tail) == PF.Scan(m, b)
    ensures WithoutText(events + tail) == AdaptAll(s0, items).events
    ensures DeltaText(events + tail) == PF.Scan(PF.Text, AiTexts(items))
  {
    PF.MeansNow(DeltaText(events), m, b, PF.Text, AiTexts(items));
    DeltaTextConcat(events, tail);
    WithoutTextConcat(events, tail);
  }

  /** A whole stream through one adapter: calls and stops are announced at most once, and the
      published text is the filtered model text, however the model cut it into chunks and
      whatever other items came in between. */
  method AdaptStream(seen: set<string>, items: seq<Item>) returns (events: seq<Event>)
    ensures WithoutText(events) == AdaptAll(State(seen - {""}, [], {}, {}, {}), items).events
    ensures Distinct(CallIds(WithoutText(events))) && Distinct(Stops(WithoutText(events)))
    ensures forall i :: 0 <= i < |CallIds(WithoutText(events))| ==> CallIds(WithoutText(events))[i] != "" && CallIds(WithoutText(events))[i] !in seen
    ensures DeltaText(events) == PF.Scan(PF.Text, AiTexts(items))
  {
    ghost var s0 := State(seen - {""}, [], {}, {}, {});
    var adapter := new HarnessEventAdapter(seen);
    var filter := adapter.assistantFilter;
    events := [];
    var i := 0;
    PF.MeansSelf(PF.Text, "");
    while i < |items|
      invariant 0 <= i <= |items|
      invariant Adapted(s0, items[..i], events, adapter.Books(), filter.mode, filter.buffer)
    {
      ghost var books, m, b := adapter.Books(), filter.mode, filter.buffer;
      var piece := adapter.AdaptItem(items[i]);
      AdaptedStep(s0, items, i, events, books, m, b, piece, adapter.Books(), filter.mode, filter.buffer);
      events := events + piece;
      i := i + 1;
    }
    assert items[..i] == items;
    ghost var m, b := filter.mode, filter.buffer;
    var tail := adapter.Finish();
    AdaptedEnd(s0, items, events, adapter.Books(), m, b, tail);
    events := events + tail;
    EachCallAnnouncedOnce(seen, items);
  }
}
