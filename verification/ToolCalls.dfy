/**
 The event adapter's bookkeeping: which tool calls and budget stops have been announced,
 whichever of the message, interrupt and custom paths brings them.
 */
module ToolCalls {
  import opened Options

  /** A tool call as it will be announced. */
  datatype Call = Call(id: string, tool: string, args: int)

  datatype Stop = Stop(reason: string, used: int, limit: int)

  /** One graph stream item, after payload projection. */
  datatype Item =
    | AiToolCalls(calls: seq<Option<Call>>)                      // None: an entry that is not an object
    | AiText(content: string)
    | ToolMessage(callId: string, tool: string, content: string)
    | Values(usage: Option<string>, lastStop: Option<Stop>, approval: Option<Call>)
    | CustomToolCall(call: Call)
    | CustomToolResult(call: Call, content: string)
    | CustomStop(stop: Stop)
    | OtherItem

  datatype Event =
    | ToolCall(call: Call)
    | ToolResult(callId: string, tool: string, content: string)
    | BudgetStop(stop: Stop)
    | BudgetNotice(reason: string)
    | BudgetUsage(usage: string)
    | Approval(call: Call)
    | TextDelta(text: string)
    | Other

  const NOTICES: set<string> := {"model_call_capped", "token_capped", "tool_call_capped", "step_capped", "time_capped"}

  /** `pending` is an insertion-ordered dictionary keyed by call id. */
  datatype State = State(seen: set<string>, pending: seq<Call>, customResults: set<(string, string)>, stops: set<Stop>, usages: set<string>)

  datatype Effect = Effect(state: State, events: seq<Event>)

  function IndexOfId(pending: seq<Call>, id: string): (r: nat)
    ensures r <= |pending|
    ensures r < |pending| ==> pending[r].id == id
    ensures forall i :: 0 <= i < r ==> pending[i].id != id
  {
    if pending == [] || pending[0].id == id then 0 else 1 + IndexOfId(pending[1..], id)
  }

  function IndexOfTool(pending: seq<Call>, tool: string): (r: nat)
    ensures r <= |pending|
    ensures r < |pending| ==> pending[r].tool == tool
    ensures forall i :: 0 <= i < r ==> pending[i].tool != tool
  {
    if pending == [] || pending[0].tool == tool then 0 else 1 + IndexOfTool(pending[1..], tool)
  }

  function Remove(pending: seq<Call>, i: nat): seq<Call>
    requires i < |pending|
  {
    pending[..i] + pending[i + 1..]
  }

  /** Dictionary assignment: an existing key keeps its place. */
  function Put(pending: seq<Call>, call: Call): seq<Call> {
    var i := IndexOfId(pending, call.id);
    if i < |pending| then pending[i := call] else pending + [call]
  }

  function Register(s: State, entry: Option<Call>): State {
    if entry.None? || entry.value.tool == "" || entry.value.id == "" || entry.value.id in s.seen then s
    else s.(pending := Put(s.pending, entry.value))
  }

  function RegisterAll(s: State, calls: seq<Option<Call>>): State {
    if calls == [] then s else Register(RegisterAll(s, calls[..|calls| - 1]), calls[|calls| - 1])
  }

  /** The pending call a result or late call refers to: by id, else the oldest one of the
      same tool. */
  function PendingIndex(pending: seq<Call>, id: string, tool: string): (r: nat)
    ensures r <= |pending|
  {
    if IndexOfId(pending, id) < |pending| then IndexOfId(pending, id) else IndexOfTool(pending, tool)
  }

  function TakePending(s: State, id: string, tool: string): Effect {
    var i := PendingIndex(s.pending, id, tool);
    if i == |s.pending| then Effect(s, [])
    else
      var call := s.pending[i];
      var s' := s.(pending := Remove(s.pending, i));
      if call.id in s.seen then Effect(s', [])
      else Effect(s'.(seen := s.seen + {call.id}), [ToolCall(call)])
  }

  function AnnounceCall(s: State, call: Call): Effect {
    var taken := TakePending(s, call.id, call.tool);
    if taken.events != [] then taken
    else if call.id == "" || call.tool == "" || call.id in taken.state.seen then taken
    else Effect(taken.state.(seen := taken.state.seen + {call.id}), [ToolCall(call)])
  }

  function AnnounceStop(s: State, stop: Stop): Effect {
    if stop.reason !in NOTICES || stop in s.stops then Effect(s, [])
    else Effect(s.(stops := s.stops + {stop}, pending := []), [BudgetStop(stop), BudgetNotice(stop.reason)])
  }

  function AnnounceUsage(s: State, usage: Option<string>): Effect {
    if usage.None? || usage.value in s.usages then Effect(s, [])
    else Effect(s.(usages := s.usages + {usage.value}), [BudgetUsage(usage.value)])
  }

  function AnnounceBudget(s: State, usage: Option<string>, stop: Option<Stop>): Effect {
    var u := AnnounceUsage(s, usage);
    var b := if stop.None? then Effect(u.state, []) else AnnounceStop(u.state, stop.value);
    Effect(b.state, u.events + b.events)
  }

  /** What one item does, apart from assistant text. */
  function Adapt(s: State, item: Item): Effect {
    match item
    case AiToolCalls(calls) => Effect(RegisterAll(s, calls), [])
    case AiText(_) => Effect(s, [])
    case ToolMessage(id, tool, content) =>
      if (tool, content) in s.customResults then Effect(s.(customResults := s.customResults - {(tool, content)}), [])
      else
        var call := TakePending(s, id, tool);
        Effect(call.state, call.events + [ToolResult(id, tool, content)])
    case Values(usage, stop, approval) =>
      var b := AnnounceBudget(s, usage, stop);
      if approval.None? then Effect(b.state, b.events + [Other])
      else
        var a := AnnounceCall(b.state, approval.value);
        Effect(a.state, b.events + a.events + [Approval(approval.value), Other])
    case CustomToolCall(call) => AnnounceCall(s, call)
    case CustomToolResult(call, content) =>
      var a := AnnounceCall(s, call);
      Effect(a.state.(customResults := a.state.customResults + {(call.tool, content)}), a.events + [ToolResult(call.id, call.tool, content)])
    case CustomStop(stop) => AnnounceStop(s, stop)
    case OtherItem => Effect(s, [Other])
  }

  function AdaptAll(s: State, items: seq<Item>): Effect {
    if items == [] then Effect(s, [])
    else
      var before := AdaptAll(s, items[..|items| - 1]);
      var last := Adapt(before.state, items[|items| - 1]);
      Effect(last.state, before.events + last.events)
  }

  // ---------------------------------------------------------------------------

  function CallIds(events: seq<Event>): seq<string> {
    if events == [] then []
    else CallIds(events[..|events| - 1]) + (if events[|events| - 1].ToolCall? then [events[|events| - 1].call.id] else [])
  }

  function Stops(events: seq<Event>): seq<Stop> {
    if events == [] then []
    else Stops(events[..|events| - 1]) + (if events[|events| - 1].BudgetStop? then [events[|events| - 1].stop] else [])
  }

  ghost predicate Distinct<T>(xs: seq<T>) {
    forall i, j :: 0 <= i < j < |xs| ==> xs[i] != xs[j]
  }

  /** Pending calls have distinct non-empty ids that have not been announced. */
  ghost predicate Valid(s: State) {
    && "" !in s.seen
    && (forall i :: 0 <= i < |s.pending| ==> s.pending[i].id != "" && s.pending[i].tool != "" && s.pending[i].id !in s.seen)
    && (forall i, j :: 0 <= i < j < |s.pending| ==> s.pending[i].id != s.pending[j].id)
  }

  /** One item announces at most fresh ids and fresh stops and records exactly those. */
  ghost predicate Records(s: State, e: Effect) {
    && Valid(e.state)
    && Distinct(CallIds(e.events)) && Distinct(Stops(e.events))
    && (forall i :: 0 <= i < |CallIds(e.events)| ==> CallIds(e.events)[i] !in s.seen)
    && (forall i :: 0 <= i < |Stops(e.events)| ==> Stops(e.events)[i] !in s.stops)
    && e.state.seen == s.seen + (set x | x in CallIds(e.events))
    && e.state.stops == s.stops + (set x | x in Stops(e.events))
  }

  lemma {:induction false} CallIdsConcat(a: seq<Event>, b: seq<Event>)
    ensures CallIds(a + b) == CallIds(a) + CallIds(b)
    ensures Stops(a + b) == Stops(a) + Stops(b)
    decreases |b|
  {
    if b == [] {
      assert a + b == a;
    } else {
      var b' := b[..|b| - 1];
      CallIdsConcat(a, b');
      assert (a + b)[..|a + b| - 1] == a + b';
    }
  }

  lemma IdsOf1(e: Event)
    ensures CallIds([e]) == (if e.ToolCall? then [e.call.id] else [])
    ensures Stops([e]) == (if e.BudgetStop? then [e.stop] else [])
  {
    assert [e][..0] == [];
  }

  lemma RecordsTrans(s: State, a: Effect, b: Effect)
    requires Records(s, a) && Records(a.state, b)
    ensures Records(s, Effect(b.state, a.events + b.events))
  {
    CallIdsConcat(a.events, b.events);
    var ids := CallIds(a.events) + CallIds(b.events);
    var stops := Stops(a.events) + Stops(b.events);
    forall i, j | 0 <= i < j < |ids| ensures ids[i] != ids[j] {
      if i < |CallIds(a.events)| <= j { assert ids[i] in a.state.seen; }
    }
    forall i, j | 0 <= i < j < |stops| ensures stops[i] != stops[j] {
      if i < |Stops(a.events)| <= j { assert stops[i] in a.state.stops; }
    }
  }

  lemma RecordsQuiet(s: State, s': State, e: Event)
    requires Valid(s') && s'.seen == s.seen && s'.stops == s.stops && !e.ToolCall? && !e.BudgetStop?
    ensures Records(s, Effect(s', [])) && Records(s, Effect(s', [e]))
  {
    IdsOf1(e);
  }

  lemma RegisterValid(s: State, entry: Option<Call>)
    requires Valid(s)
    ensures Valid(Register(s, entry)) && Register(s, entry) == s.(pending := Register(s, entry).pending)
  {
  }

  lemma {:induction false} RegisterAllValid(s: State, calls: seq<Option<Call>>)
    requires Valid(s)
    ensures Valid(RegisterAll(s, calls)) && RegisterAll(s, calls) == s.(pending := RegisterAll(s, calls).pending)
    decreases |calls|
  {
    if calls != [] {
      RegisterAllValid(s, calls[..|calls| - 1]);
      RegisterValid(RegisterAll(s, calls[..|calls| - 1]), calls[|calls| - 1]);
    }
  }

  lemma TakePendingRecords(s: State, id: string, tool: string)
    requires Valid(s)
    ensures Records(s, TakePending(s, id, tool))
    ensures TakePending(s, id, tool).events == [] ==> TakePending(s, id, tool).state == s
    ensures PendingIndex(s.pending, id, tool) < |s.pending| ==>
      TakePending(s, id, tool).events == [ToolCall(s.pending[PendingIndex(s.pending, id, tool)])]
  {
    var i := PendingIndex(s.pending, id, tool);
    if i < |s.pending| {
      RemoveValid(s, i);
      IdsOf1(ToolCall(s.pending[i]));
    }
  }

  /** A pending call can be taken out and marked as seen. */
  lemma RemoveValid(s: State, i: nat)
    requires Valid(s) && i < |s.pending|
    ensures Valid(s.(pending := Remove(s.pending, i), seen := s.seen + {s.pending[i].id}))
  {
    var rest := Remove(s.pending, i);
    assert forall k :: 0 <= k < |rest| ==> rest[k] == s.pending[if k < i then k else k + 1];
  }

  lemma AnnounceCallRecords(s: State, call: Call)
    requires Valid(s)
    ensures Records(s, AnnounceCall(s, call))
  {
    TakePendingRecords(s, call.id, call.tool);
    IdsOf1(ToolCall(call));
    var e := AnnounceCall(s, call);
    if TakePending(s, call.id, call.tool).events == [] && e.events != [] {
      assert IndexOfId(s.pending, call.id) == |s.pending|;
    }
  }

  /** An event that announces nothing may follow. */
  lemma RecordsSnoc(s: State, a: Effect, e: Event)
    requires Records(s, a) && !e.ToolCall? && !e.BudgetStop?
    ensures Records(s, Effect(a.state, a.events + [e]))
  {
    RecordsQuiet(a.state, a.state, e);
    RecordsTrans(s, a, Effect(a.state, [e]));
  }

  lemma AnnounceStopRecords(s: State, stop: Stop)
    requires Valid(s)
    ensures Records(s, AnnounceStop(s, stop))
  {
    if stop.reason in NOTICES && stop !in s.stops {
      var first := Effect(s.(stops := s.stops + {stop}, pending := []), [BudgetStop(stop)]);
      IdsOf1(BudgetStop(stop));
      assert Records(s, first);
      RecordsSnoc(s, first, BudgetNotice(stop.reason));
      assert first.events + [BudgetNotice(stop.reason)] == [BudgetStop(stop), BudgetNotice(stop.reason)];
    }
  }

  lemma AnnounceUsageRecords(s: State, usage: Option<string>)
    requires Valid(s)
    ensures Records(s, AnnounceUsage(s, usage))
  {
    if usage.Some? { RecordsQuiet(s, AnnounceUsage(s, usage).state, BudgetUsage(usage.value)); }
  }

  lemma AnnounceBudgetRecords(s: State, usage: Option<string>, stop: Option<Stop>)
    requires Valid(s)
    ensures Records(s, AnnounceBudget(s, usage, stop))
  {
    AnnounceUsageRecords(s, usage);
    var u := AnnounceUsage(s, usage);
    if stop.Some? {
      AnnounceStopRecords(u.state, stop.value);
      RecordsTrans(s, u, AnnounceStop(u.state, stop.value));
    } else {
      assert u.events + [] == u.events;
    }
  }

  lemma ApprovalRecords(s: State, b: Effect, call: Call)
    requires Records(s, b)
    ensures var a := AnnounceCall(b.state, call);
      Records(s, Effect(a.state, b.events + a.events + [Approval(call), Other]))
  {
    AnnounceCallRecords(b.state, call);
    var a := AnnounceCall(b.state, call);
    RecordsTrans(s, b, a);
    RecordsTwo(s, Effect(a.state, b.events + a.events), Approval(call), Other);
  }

  lemma RecordsTwo(s: State, e: Effect, f: Event, g: Event)
    requires Records(s, e) && !f.ToolCall? && !f.BudgetStop? && !g.ToolCall? && !g.BudgetStop?
    ensures Records(s, Effect(e.state, e.events + [f, g]))
  {
    RecordsSnoc(s, e, f);
    RecordsSnoc(s, Effect(e.state, e.events + [f]), g);
    assert e.events + [f] + [g] == e.events + [f, g];
  }

  lemma ValuesRecords(s: State, usage: Option<string>, stop: Option<Stop>, approval: Option<Call>)
    requires Valid(s)
    ensures Records(s, Adapt(s, Values(usage, stop, approval)))
  {
    AnnounceBudgetRecords(s, usage, stop);
    var b := AnnounceBudget(s, usage, stop);
    if approval.None? { RecordsSnoc(s, b, Other); } else { ApprovalRecords(s, b, approval.value); }
  }

  lemma ResultRecords(s: State, call: Call, content: string)
    requires Valid(s)
    ensures Records(s, Adapt(s, CustomToolResult(call, content)))
  {
    AnnounceCallRecords(s, call);
    var a := AnnounceCall(s, call);
    var s' := Adapt(s, CustomToolResult(call, content)).state;
    RecordsQuiet(a.state, s', ToolResult(call.id, call.tool, content));
    RecordsTrans(s, a, Effect(s', [ToolResult(call.id, call.tool, content)]));
  }

  lemma ToolMessageRecords(s: State, id: string, tool: string, content: string)
    requires Valid(s)
    ensures Records(s, Adapt(s, ToolMessage(id, tool, content)))
  {
    if (tool, content) !in s.customResults {
      TakePendingRecords(s, id, tool);
      RecordsSnoc(s, TakePending(s, id, tool), ToolResult(id, tool, content));
    }
  }

  lemma AdaptRecords(s: State, item: Item)
    requires Valid(s)
    ensures Records(s, Adapt(s, item))
  {
    match item
    case AiToolCalls(calls) => RegisterAllValid(s, calls);
    case AiText(_) =>
    case ToolMessage(id, tool, content) => ToolMessageRecords(s, id, tool, content);
    case Values(usage, stop, approval) => ValuesRecords(s, usage, stop, approval);
    case CustomToolCall(call) => AnnounceCallRecords(s, call);
    case CustomToolResult(call, content) => ResultRecords(s, call, content);
    case CustomStop(stop) => AnnounceStopRecords(s, stop);
    case OtherItem => RecordsQuiet(s, s, Other);
  }

  lemma {:induction false} AdaptAllRecords(s: State, items: seq<Item>)
    requires Valid(s)
    ensures Records(s, AdaptAll(s, items))
    decreases |items|
  {
    if items != [] {
      var before := AdaptAll(s, items[..|items| - 1]);
      AdaptAllRecords(s, items[..|items| - 1]);
      AdaptRecords(before.state, items[|items| - 1]);
      RecordsTrans(s, before, Adapt(before.state, items[|items| - 1]));
    }
  }

  /** Over any stream, whichever paths the calls take: announced calls have pairwise distinct
      non-empty ids, none of them seen before the stream, and each budget stop is announced
      at most once. */
  lemma EachCallAnnouncedOnce(seen: set<string>, items: seq<Item>)
    ensures var e := AdaptAll(State(seen - {""}, [], {}, {}, {}), items);
      && Distinct(CallIds(e.events)) && Distinct(Stops(e.events))
      && (forall i :: 0 <= i < |CallIds(e.events)| ==> CallIds(e.events)[i] != "" && CallIds(e.events)[i] !in seen)
      && e.state.seen == (seen - {""}) + (set x | x in CallIds(e.events))
  {
    var s := State(seen - {""}, [], {}, {}, {});
    AdaptAllRecords(s, items);
    var e := AdaptAll(s, items);
    forall i | 0 <= i < |CallIds(e.events)| ensures CallIds(e.events)[i] != "" && CallIds(e.events)[i] !in seen {
      assert CallIds(e.events)[i] in e.state.seen;
    }
  }

  /** A call other than the one that came in is announced for it. */
  predicate AnnouncesAnother(s: State, call: Call) {
    var events := AnnounceCall(s, call).events;
    |events| == 1 && events[0].ToolCall? && events[0].call.id != call.id
  }

  /** A call's own id ends up announced, now or earlier, exactly when it was announced before, is
      pending, or has an id and a tool with no pending call of that tool.  Another call is announced
      for it exactly when its id is not pending and some call of its tool is: then the oldest one is,
      whatever the incoming call is; a call that matches nothing pending and is incomplete or known
      announces nothing. */
  lemma AnnouncedExactlyWhen(s: State, call: Call)
    requires Valid(s)
    ensures call.id in AnnounceCall(s, call).state.seen <==>
      || call.id in s.seen
      || IndexOfId(s.pending, call.id) < |s.pending|
      || (call.id != "" && call.tool != "" && IndexOfTool(s.pending, call.tool) == |s.pending|)
    ensures AnnouncesAnother(s, call) <==>
      IndexOfId(s.pending, call.id) == |s.pending| && IndexOfTool(s.pending, call.tool) < |s.pending|
    ensures AnnouncesAnother(s, call) ==>
      AnnounceCall(s, call).events == [ToolCall(s.pending[IndexOfTool(s.pending, call.tool)])]
    ensures AnnounceCall(s, call).events == [] <==>
      && IndexOfId(s.pending, call.id) == IndexOfTool(s.pending, call.tool) == |s.pending|
      && (call.id == "" || call.tool == "" || call.id in s.seen)
  {
    TakePendingRecords(s, call.id, call.tool);
  }

  /** A call "b" of tool "x" while "a" of the same tool is pending: "a" is announced, "b" is not. */
  lemma FallbackAnnouncesTheOtherCall()
    ensures var s := State({}, [Call("a", "x", 0)], {}, {}, {});
            var e := AnnounceCall(s, Call("b", "x", 1));
            Valid(s) && e.events == [ToolCall(Call("a", "x", 0))] && "b" !in e.state.seen
  {
    var s := State({}, [Call("a", "x", 0)], {}, {}, {});
    AnnouncedExactlyWhen(s, Call("b", "x", 1));
    assert IndexOfId(s.pending, "b") == 1 && IndexOfTool(s.pending, "x") == 0;
  }

  /** A tool result that is not the echo of a custom one is preceded by the announcement of
      the pending call it completes. */
  lemma ResultFollowsItsCall(s: State, id: string, tool: string, content: string)
    requires Valid(s) && (tool, content) !in s.customResults && IndexOfId(s.pending, id) < |s.pending|
    ensures Adapt(s, ToolMessage(id, tool, content)).events ==
      [ToolCall(s.pending[IndexOfId(s.pending, id)]), ToolResult(id, tool, content)]
    ensures forall i :: 0 <= i < |Adapt(s, ToolMessage(id, tool, content)).state.pending| ==> Adapt(s, ToolMessage(id, tool, content)).state.pending[i].id != id
  {
    TakePendingRecords(s, id, tool);
  }

  /** Some call is announced and then the result published. */
  predicate CallBefore(events: seq<Event>, result: Event) {
    |events| == 2 && events[0].ToolCall? && events[1] == result
  }

  /** What comes before a tool result: nothing at all, not even the result, exactly for the echo of a custom one; else
      the announcement of its own call exactly when its id is pending, of the oldest pending call of its tool exactly
      when only that one is, and no announcement exactly when neither is.  Nothing else leaves the pending calls. */
  lemma ResultAnnouncesExactlyWhen(s: State, id: string, tool: string, content: string)
    requires Valid(s)
    ensures var e, byId, byTool := Adapt(s, ToolMessage(id, tool, content)), IndexOfId(s.pending, id), IndexOfTool(s.pending, tool);
      var result, n := ToolResult(id, tool, content), |s.pending|;
      && (e.events == [] <==> (tool, content) in s.customResults)
      && (CallBefore(e.events, result) && e.events[0].call.id == id <==> (tool, content) !in s.customResults && byId < n)
      && (CallBefore(e.events, result) && e.events[0].call.id != id <==> (tool, content) !in s.customResults && byId == n && byTool < n)
      && (e.events == [result] <==> (tool, content) !in s.customResults && byId == byTool == n)
      && ((tool, content) !in s.customResults && byId == n && byTool < n ==>
            e.events == [ToolCall(s.pending[byTool]), result] && e.state.pending == Remove(s.pending, byTool))
  {
    TakePendingRecords(s, id, tool);
    var i := PendingIndex(s.pending, id, tool);
    if i < |s.pending| && (tool, content) !in s.customResults {
      var e := Adapt(s, ToolMessage(id, tool, content));
      assert e.events == [ToolCall(s.pending[i]), ToolResult(id, tool, content)];
    }
  }
}
