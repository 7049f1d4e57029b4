/**
 The engine's turn loop (`Engine.run_turn` in core/coding/engine/engine.py): model, parse, tool, final.  What the
 outside does in each round of the loop is an input: the stop flag, the context check, the model's parsed answer and
 what its tools do.  An exception ends the event stream after any of its events but the last.
 */
module Engine {
  const MAX_PROTOCOL_RETRIES := 2
  const MAX_TOOL_ARGUMENT_RETRIES := 2
  const MAX_REPEAT := 3

  datatype Event =
    | Context(kind: string)
    | ModelRequested
    | TextDelta
    | ModelParsed
    | Retry
    | Tool(kind: string)
    | Final
    | Error
    | Cancelled
    | StepLimit

  /** A tool's name and its serialized arguments. */
  datatype Signature = Signature(name: string, args: string)

  /** A tool call of the answer: was a stop requested before it, what does it emit, and is it stopped while it runs. */
  datatype Call = Call(signature: Signature, stop: bool, kinds: seq<string>, cancelled: bool)

  /** `valid`: every call passes the argument check.  `plain`: the text is not blank and holds no tag. */
  datatype Answer = Tools(calls: seq<Call>, valid: bool) | Malformed(plain: bool) | Complete

  datatype Round = Round(stop: bool, context: seq<string>, allowed: bool, deltas: nat, stopAfter: bool, answer: Answer)

  // ---------------------------------------------------------------------------
  // The loop, as values.

  /** The loop's variables, what it has yielded and the calls it has started. */
  datatype Progress = Progress(events: seq<Event>, started: seq<Signature>, attempts: nat, protocolRetries: nat, argumentRetries: nat, repeats: nat)

  /** Where a part of the loop leaves it: the turn is over, its calls reached the step limit, or neither. */
  datatype Outcome = Outcome(p: Progress, ended: bool, full: bool)

  const Start := Progress([], [], 0, 0, 0, 0)

  function Emit(p: Progress, more: seq<Event>): Progress { p.(events := p.events + more) }

  function Ended(p: Progress, last: Event): Outcome { Outcome(Emit(p, [last]), true, false) }

  function Going(p: Progress): Outcome { Outcome(p, false, false) }

  function Texts(n: nat): seq<Event> { if n == 0 then [] else Texts(n - 1) + [TextDelta] }

  function Contexts(kinds: seq<string>): seq<Event> {
    if kinds == [] then [] else Contexts(kinds[..|kinds| - 1]) + [Context(kinds[|kinds| - 1])]
  }

  function ToolEvents(kinds: seq<string>): seq<Event> {
    if kinds == [] then [] else ToolEvents(kinds[..|kinds| - 1]) + [Tool(kinds[|kinds| - 1])]
  }

  /** Up to the parsed answer: the stop flag, the context check, the model request, the stop flag again. */
  function Ask(p: Progress, r: Round): Outcome {
    var q := Emit(p, Contexts(r.context));
    var asked := Emit(q, [ModelRequested] + Texts(r.deltas)).(attempts := p.attempts + 1);
    if r.stop then Ended(p, Cancelled)
    else if !r.allowed then Ended(Emit(q, [Error]), Cancelled)
    else if r.stopAfter then Ended(asked, Cancelled)
    else Going(Emit(asked, [ModelParsed]))
  }

  /** How often in a row a call was asked for, when it comes. */
  function Repeats(p: Progress, s: Signature): nat {
    if p.started != [] && p.started[|p.started| - 1] == s then p.repeats + 1 else 0
  }

  function Launch(p: Progress, call: Call): Progress {
    p.(started := p.started + [call.signature], repeats := Repeats(p, call.signature), events := p.events + ToolEvents(call.kinds))
  }

  /** One call: refused as a repetition, cut by the step limit, stopped, or started. */
  function AfterCall(p: Progress, call: Call, maxSteps: nat): Outcome {
    if Repeats(p, call.signature) >= MAX_REPEAT then Ended(p, Final)
    else if |p.started| >= maxSteps then Outcome(p, false, true)
    else if call.stop then Ended(p, Cancelled)
    else if call.cancelled then Ended(Launch(p, call), Cancelled)
    else Going(Launch(p, call))
  }

  /** The calls of one answer from `i` on, until one ends the turn or the step limit is reached. */
  function AfterCalls(p: Progress, calls: seq<Call>, i: nat, maxSteps: nat): Outcome
    requires i <= |calls|
    decreases |calls| - i
  {
    if i == |calls| then Going(p)
    else
      var o := AfterCall(p, calls[i], maxSteps);
      if o.ended || o.full then o else AfterCalls(o.p, calls, i + 1, maxSteps)
  }

  /** A final answer, calls, or an answer that is sent back or, after two of its kind, ends the turn. */
  function Use(p: Progress, a: Answer, maxSteps: nat): Outcome {
    match a
    case Complete => Ended(p, Final)
    case Malformed(plain) =>
      if (plain && p.started != [] && p.protocolRetries > 0) || p.protocolRetries >= MAX_PROTOCOL_RETRIES then Ended(p, Final)
      else Going(Emit(p, [Retry]).(protocolRetries := p.protocolRetries + 1))
    case Tools(calls, valid) =>
      if valid then AfterCalls(p, calls, 0, maxSteps)
      else if p.argumentRetries >= MAX_TOOL_ARGUMENT_RETRIES then Ended(p, Final)
      else Going(Emit(p, [Retry]).(argumentRetries := p.argumentRetries + 1))
  }

  function AfterRound(p: Progress, r: Round, maxSteps: nat): Outcome {
    var o := Ask(p, r);
    if o.ended then o else Use(o.p, r.answer, maxSteps)
  }

  lemma RoundAdvances(p: Progress, r: Round, maxSteps: nat)
    ensures var o := AfterRound(p, r, maxSteps); o.p.attempts <= p.attempts + 1 && (!o.ended ==> o.p.attempts == p.attempts + 1)
  {
    var o := Ask(p, r);
    if !o.ended && r.answer.Tools? { CallsKeepCounters(o.p, r.answer.calls, 0, maxSteps); }
  }

  lemma {:induction false} CallsKeepCounters(p: Progress, calls: seq<Call>, i: nat, maxSteps: nat)
    requires i <= |calls|
    ensures var q := AfterCalls(p, calls, i, maxSteps).p;
      q.attempts == p.attempts && q.protocolRetries == p.protocolRetries && q.argumentRetries == p.argumentRetries
    decreases |calls| - i
  {
    if i < |calls| {
      var o := AfterCall(p, calls[i], maxSteps);
      if !o.ended && !o.full { CallsKeepCounters(o.p, calls, i + 1, maxSteps); }
    }
  }

  /** The rest of the turn; `rounds` says what happens in each round there may be. */
  function Finish(p: Progress, rounds: seq<Round>, maxSteps: nat): Progress
    requires |rounds| == maxSteps + 2
    decreases maxSteps + 2 - p.attempts
  {
    if |p.started| >= maxSteps || p.attempts >= maxSteps + 2 then Emit(p, [StepLimit])
    else
      var o := AfterRound(p, rounds[p.attempts], maxSteps);
      RoundAdvances(p, rounds[p.attempts], maxSteps);
      if o.ended then o.p else Finish(o.p, rounds, maxSteps)
  }

  // ---------------------------------------------------------------------------
  // The loop, as the program.

  method RunCalls(p: Progress, calls: seq<Call>, maxSteps: nat) returns (q: Progress, ended: bool)
    ensures var o := AfterCalls(p, calls, 0, maxSteps); q == o.p && ended == o.ended
  {
    q := p;
    var i := 0;
    while i < |calls|
      invariant 0 <= i <= |calls|
      invariant AfterCalls(p, calls, 0, maxSteps) == AfterCalls(q, calls, i, maxSteps)
    {
      var call := calls[i];
      var repeats := Repeats(q, call.signature);
      if repeats >= MAX_REPEAT {
        return Emit(q, [Final]), true;
      }
      if |q.started| >= maxSteps {
        break;
      }
      if call.stop {
        return Emit(q, [Cancelled]), true;
      }
      q := q.(started := q.started + [call.signature], repeats := repeats, events := q.events + ToolEvents(call.kinds));
      if call.cancelled {
        return Emit(q, [Cancelled]), true;
      }
      i := i + 1;
    }
    ended := false;
  }

  method RunRound(p: Progress, r: Round, maxSteps: nat) returns (q: Progress, ended: bool)
    ensures var o := AfterRound(p, r, maxSteps); q == o.p && ended == o.ended
  {
    if r.stop {
      return Emit(p, [Cancelled]), true;
    }
    q, ended := Emit(p, Contexts(r.context)), false;
    if !r.allowed {
      q := Emit(q, [Error]);
      return Emit(q, [Cancelled]), true;
    }
    q := Emit(q, [ModelRequested] + Texts(r.deltas)).(attempts := q.attempts + 1);
    if r.stopAfter {
      return Emit(q, [Cancelled]), true;
    }
    q := Emit(q, [ModelParsed]);
    match r.answer {
      case Complete =>
        return Emit(q, [Final]), true;
      case Malformed(plain) =>
        if (plain && q.started != [] && q.protocolRetries > 0) || q.protocolRetries >= MAX_PROTOCOL_RETRIES {
          return Emit(q, [Final]), true;
        }
        q := Emit(q, [Retry]).(protocolRetries := q.protocolRetries + 1);
      case Tools(calls, valid) =>
        if valid {
          q, ended := RunCalls(q, calls, maxSteps);
        } else if q.argumentRetries >= MAX_TOOL_ARGUMENT_RETRIES {
          return Emit(q, [Final]), true;
        } else {
          q := Emit(q, [Retry]).(argumentRetries := q.argumentRetries + 1);
        }
    }
  }

  /** `run_turn`, when nothing raises. */
  method RunTurn(rounds: seq<Round>, maxSteps: nat) returns (p: Progress)
    requires |rounds| == maxSteps + 2
    ensures p == Finish(Start, rounds, maxSteps)
  {
    p := Start;
    while |p.started| < maxSteps && p.attempts < maxSteps + 2
      invariant Finish(p, rounds, maxSteps) == Finish(Start, rounds, maxSteps)
      decreases maxSteps + 2 - p.attempts
    {
      var ended;
      RoundAdvances(p, rounds[p.attempts], maxSteps);
      p, ended := RunRound(p, rounds[p.attempts], maxSteps);
      if ended {
        return;
      }
    }
    p := Emit(p, [StepLimit]);
  }
}
