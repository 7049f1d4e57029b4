/** However the model answers, how a turn of the engine ends and what it does on the way. */
module EngineProofs {
  import opened Engine

  // ---------------------------------------------------------------------------
  // One deciding event, at the end.

  predicate Decides(e: Event) { e.Final? || e.Error? || e.Cancelled? || e.StepLimit? }

  predicate NoneDecides(events: seq<Event>) { forall i | 0 <= i < |events| :: !Decides(events[i]) }

  /** The last event decides the turn, and it alone, except that a blocked context reports an error just before. */
  predicate EndsDecided(events: seq<Event>) {
    var n := |events| - 1;
    && n >= 0 && (events[n].Final? || events[n].Cancelled? || events[n].StepLimit?)
    && (NoneDecides(events[..n]) || (n > 0 && events[n].Cancelled? && events[n - 1].Error? && NoneDecides(events[..n - 1])))
  }

  lemma DecidesLast(events: seq<Event>, last: Event)
    requires NoneDecides(events) && (last.Final? || last.Cancelled? || last.StepLimit?)
    ensures EndsDecided(events + [last])
  {
    assert (events + [last])[..|events|] == events;
  }

  lemma BlockedLast(events: seq<Event>)
    requires NoneDecides(events)
    ensures EndsDecided(events + [Error] + [Cancelled])
  {
    assert (events + [Error] + [Cancelled])[..|events|] == events;
  }

  lemma {:induction false} QuietContexts(kinds: seq<string>)
    ensures var c := Contexts(kinds); NoneDecides(c) && multiset(c)[ModelRequested] == multiset(c)[Retry] == 0
  {
    if kinds != [] { QuietContexts(kinds[..|kinds| - 1]); }
  }

  lemma {:induction false} QuietTexts(n: nat)
    ensures var c := Texts(n); NoneDecides(c) && multiset(c)[ModelRequested] == multiset(c)[Retry] == 0
  {
    if n > 0 { QuietTexts(n - 1); }
  }

  lemma {:induction false} QuietTool(kinds: seq<string>)
    ensures var c := ToolEvents(kinds); NoneDecides(c) && multiset(c)[ModelRequested] == multiset(c)[Retry] == 0
  {
    if kinds != [] { QuietTool(kinds[..|kinds| - 1]); }
  }

  lemma AskDecides(p: Progress, r: Round)
    requires NoneDecides(p.events)
    ensures var o := Ask(p, r); if o.ended then EndsDecided(o.p.events) else NoneDecides(o.p.events)
  {
    var q := Emit(p, Contexts(r.context));
    var asked := Emit(q, [ModelRequested] + Texts(r.deltas));
    QuietContexts(r.context);
    QuietTexts(r.deltas);
    assert NoneDecides(asked.events);
    DecidesLast(p.events, Cancelled);
    DecidesLast(asked.events, Cancelled);
    BlockedLast(q.events);
  }

  lemma {:induction false} CallsDecide(p: Progress, calls: seq<Call>, i: nat, maxSteps: nat)
    requires i <= |calls| && NoneDecides(p.events)
    ensures var o := AfterCalls(p, calls, i, maxSteps); if o.ended then EndsDecided(o.p.events) else NoneDecides(o.p.events)
    decreases |calls| - i
  {
    if i < |calls| {
      QuietTool(calls[i].kinds);
      DecidesLast(p.events, Final);
      DecidesLast(p.events, Cancelled);
      DecidesLast(Launch(p, calls[i]).events, Cancelled);
      var o := AfterCall(p, calls[i], maxSteps);
      if !o.ended && !o.full { CallsDecide(o.p, calls, i + 1, maxSteps); }
    }
  }

  lemma RoundDecides(p: Progress, r: Round, maxSteps: nat)
    requires NoneDecides(p.events)
    ensures var o := AfterRound(p, r, maxSteps); if o.ended then EndsDecided(o.p.events) else NoneDecides(o.p.events)
  {
    AskDecides(p, r);
    var o := Ask(p, r);
    if !o.ended {
      DecidesLast(o.p.events, Final);
      if r.answer.Tools? { CallsDecide(o.p, r.answer.calls, 0, maxSteps); }
    }
  }

  /** Every turn of the engine that does not raise ends with one deciding event. */
  lemma {:induction false} TurnEndsDecided(p: Progress, rounds: seq<Round>, maxSteps: nat)
    requires |rounds| == maxSteps + 2 && NoneDecides(p.events)
    ensures EndsDecided(Finish(p, rounds, maxSteps).events)
    decreases maxSteps + 2 - p.attempts
  {
    if |p.started| >= maxSteps || p.attempts >= maxSteps + 2 {
      DecidesLast(p.events, StepLimit);
    } else {
      var o := AfterRound(p, rounds[p.attempts], maxSteps);
      RoundAdvances(p, rounds[p.attempts], maxSteps);
      RoundDecides(p, rounds[p.attempts], maxSteps);
      if !o.ended { TurnEndsDecided(o.p, rounds, maxSteps); }
    }
  }

  // ---------------------------------------------------------------------------
  // Bounds.

  /** The loop's counters count what was emitted. */
  predicate Counted(p: Progress) {
    && p.attempts == multiset(p.events)[ModelRequested]
    && p.protocolRetries + p.argumentRetries == multiset(p.events)[Retry]
    && p.protocolRetries <= MAX_PROTOCOL_RETRIES && p.argumentRetries <= MAX_TOOL_ARGUMENT_RETRIES
  }

  lemma AskCounts(p: Progress, r: Round)
    requires Counted(p)
    ensures Counted(Ask(p, r).p)
  {
    QuietContexts(r.context);
    QuietTexts(r.deltas);
    var q := Emit(p, Contexts(r.context));
    var asked := Emit(q, [ModelRequested] + Texts(r.deltas)).(attempts := p.attempts + 1);
    assert Counted(q) && Counted(asked);
  }

  lemma {:induction false} CallsCount(p: Progress, calls: seq<Call>, i: nat, maxSteps: nat)
    requires i <= |calls| && Counted(p)
    ensures Counted(AfterCalls(p, calls, i, maxSteps).p)
    decreases |calls| - i
  {
    if i < |calls| {
      QuietTool(calls[i].kinds);
      assert Counted(Launch(p, calls[i]));
      var o := AfterCall(p, calls[i], maxSteps);
      if !o.ended && !o.full { CallsCount(o.p, calls, i + 1, maxSteps); }
    }
  }

  lemma UseCounts(p: Progress, a: Answer, maxSteps: nat)
    requires Counted(p)
    ensures Counted(Use(p, a, maxSteps).p)
  {
    assert Counted(Emit(p, [Final]));
    match a {
      case Complete =>
      case Malformed(_) =>
      case Tools(calls, _) => CallsCount(p, calls, 0, maxSteps);
    }
  }

  lemma RoundCounts(p: Progress, r: Round, maxSteps: nat)
    requires Counted(p)
    ensures Counted(AfterRound(p, r, maxSteps).p)
  {
    AskCounts(p, r);
    var o := Ask(p, r);
    if !o.ended { UseCounts(o.p, r.answer, maxSteps); }
  }

  /** A turn makes at most `maxSteps + 2` model requests and sends at most four answers back. */
  lemma {:induction false} TurnIsBounded(p: Progress, rounds: seq<Round>, maxSteps: nat)
    requires |rounds| == maxSteps + 2 && Counted(p) && p.attempts <= maxSteps + 2
    ensures var q := Finish(p, rounds, maxSteps);
      && q.attempts == multiset(q.events)[ModelRequested] <= maxSteps + 2
      && multiset(q.events)[Retry] <= MAX_PROTOCOL_RETRIES + MAX_TOOL_ARGUMENT_RETRIES
    decreases maxSteps + 2 - p.attempts
  {
    if |p.started| < maxSteps && p.attempts < maxSteps + 2 {
      var o := AfterRound(p, rounds[p.attempts], maxSteps);
      RoundAdvances(p, rounds[p.attempts], maxSteps);
      RoundCounts(p, rounds[p.attempts], maxSteps);
      if !o.ended { TurnIsBounded(o.p, rounds, maxSteps); }
    }
  }

  // ---------------------------------------------------------------------------
  // The calls.

  predicate FourFrom(started: seq<Signature>, i: int) {
    0 <= i < |started| - MAX_REPEAT && started[i] == started[i + 1] == started[i + 2] == started[i + 3]
  }

  /** No call is started four times in a row. */
  predicate NoLoop(started: seq<Signature>) {
    forall i | 0 <= i < |started| - MAX_REPEAT :: !FourFrom(started, i)
  }

  /** How many calls at the end are the same. */
  function Tail(started: seq<Signature>): nat {
    var n := |started| - 1;
    if n < 0 then 0
    else if n > 0 && started[n - 1] == started[n] then Tail(started[..n]) + 1
    else 1
  }

  predicate Sane(p: Progress, maxSteps: nat) {
    |p.started| <= maxSteps && NoLoop(p.started) && p.repeats < MAX_REPEAT && (p.started != [] ==> Tail(p.started) == p.repeats + 1)
  }

  lemma TailOfThree(started: seq<Signature>)
    ensures started != [] ==> Tail(started) >= 1
    ensures var n := |started|; Tail(started) >= MAX_REPEAT <==> n >= MAX_REPEAT && started[n - 1] == started[n - 2] == started[n - 3]
  {
    var n := |started|;
    if n > 1 {
      assert Tail(started[..n - 1]) >= 1;
      if n > 2 { assert started[..n - 1][..n - 2] == started[..n - 2]; }
    }
  }

  lemma LaunchKeeps(p: Progress, call: Call, maxSteps: nat)
    requires Sane(p, maxSteps) && |p.started| < maxSteps && Repeats(p, call.signature) < MAX_REPEAT
    ensures Sane(Launch(p, call), maxSteps)
  {
    var n, started := |p.started|, Launch(p, call).started;
    assert started[..n] == p.started;
    TailOfThree(p.started);
    forall i | 0 <= i < |started| - MAX_REPEAT ensures !FourFrom(started, i) {
      if i + MAX_REPEAT < n {
        assert !FourFrom(p.started, i);
        assert started[i + 3] == p.started[i + 3];
      }
    }
  }

  function Signatures(calls: seq<Call>): (r: seq<Signature>)
    ensures |r| == |calls|
  {
    if calls == [] then [] else [calls[0].signature] + Signatures(calls[1..])
  }

  /** The calls of one answer are started in order, all of them if the loop goes on below the step limit. */
  lemma {:induction false} CallsAreSane(p: Progress, calls: seq<Call>, i: nat, maxSteps: nat)
    requires i <= |calls| && Sane(p, maxSteps)
    ensures var o, wanted := AfterCalls(p, calls, i, maxSteps), p.started + Signatures(calls[i..]);
      && Sane(o.p, maxSteps) && o.p.started <= wanted && p.started <= o.p.started
      && (!o.ended && |o.p.started| < maxSteps ==> o.p.started == wanted)
    decreases |calls| - i
  {
    if i < |calls| {
      var o := AfterCall(p, calls[i], maxSteps);
      var rest := Signatures(calls[i + 1..]);
      assert calls[i..][1..] == calls[i + 1..];
      assert p.started + Signatures(calls[i..]) == p.started + [calls[i].signature] + rest;
      if o.p.started != p.started || (!o.ended && !o.full) {
        LaunchKeeps(p, calls[i], maxSteps);
        if !o.ended { CallsAreSane(o.p, calls, i + 1, maxSteps); }
      }
    }
  }

  /** The calls that the first `n` answers ask for, without the answers that are sent back. */
  function Wanted(rounds: seq<Round>, n: nat): seq<Signature>
    requires n <= |rounds|
  {
    if n == 0 then [] else Wanted(rounds, n - 1) + Asked(rounds[n - 1].answer)
  }

  function Asked(a: Answer): seq<Signature> { if a.Tools? && a.valid then Signatures(a.calls) else [] }

  lemma RoundStarts(p: Progress, r: Round, maxSteps: nat)
    requires Sane(p, maxSteps)
    ensures var o, wanted := AfterRound(p, r, maxSteps), p.started + Asked(r.answer);
      && Sane(o.p, maxSteps) && o.p.started <= wanted && p.started <= o.p.started
      && (!o.ended && |o.p.started| < maxSteps ==> o.p.started == wanted)
      && (o.p.attempts == p.attempts ==> o.p.started == p.started)
  {
    var o := Ask(p, r);
    assert Sane(o.p, maxSteps);
    if !o.ended && r.answer.Tools? {
      CallsAreSane(o.p, r.answer.calls, 0, maxSteps);
      CallsKeepCounters(o.p, r.answer.calls, 0, maxSteps);
      assert r.answer.calls[0..] == r.answer.calls;
    }
  }

  /** What was started is what the answers asked for, in order, and complete below the step limit. */
  predicate InOrder(p: Progress, rounds: seq<Round>, maxSteps: nat) {
    && p.attempts <= |rounds| && p.started <= Wanted(rounds, p.attempts)
    && (|p.started| < maxSteps ==> p.started == Wanted(rounds, p.attempts))
  }

  /** Every answer before the last was carried out, and the last one up to where it was cut. */
  predicate Carried(p: Progress, rounds: seq<Round>) {
    && p.attempts <= |rounds| && p.started <= Wanted(rounds, p.attempts)
    && (p.attempts > 0 ==> Wanted(rounds, p.attempts - 1) <= p.started)
  }

  lemma RoundKeepsOrder(p: Progress, rounds: seq<Round>, maxSteps: nat)
    requires Sane(p, maxSteps) && p.attempts < |rounds| && |p.started| < maxSteps && InOrder(p, rounds, maxSteps)
    requires p.attempts > 0 ==> Wanted(rounds, p.attempts - 1) <= p.started
    ensures var o := AfterRound(p, rounds[p.attempts], maxSteps);
      Carried(o.p, rounds) && (!o.ended ==> InOrder(o.p, rounds, maxSteps))
  {
    var r := rounds[p.attempts];
    var o := AfterRound(p, r, maxSteps);
    RoundAdvances(p, r, maxSteps);
    RoundStarts(p, r, maxSteps);
    AskNeverGoesBack(p, r, maxSteps);
    OrderGoesOn(p, o.p, rounds, maxSteps, o.ended);
  }

  lemma OrderGoesOn(p: Progress, q: Progress, rounds: seq<Round>, maxSteps: nat, ended: bool)
    requires p.attempts < |rounds| && p.started == Wanted(rounds, p.attempts)
    requires p.attempts > 0 ==> Wanted(rounds, p.attempts - 1) <= p.started
    requires q.attempts == p.attempts + 1 || (ended && q.attempts == p.attempts && q.started == p.started)
    requires p.started <= q.started <= p.started + Asked(rounds[p.attempts].answer)
    requires !ended && |q.started| < maxSteps ==> q.started == p.started + Asked(rounds[p.attempts].answer)
    ensures Carried(q, rounds) && (!ended ==> InOrder(q, rounds, maxSteps))
  {
    assert Wanted(rounds, p.attempts + 1) == p.started + Asked(rounds[p.attempts].answer);
  }

  /** The calls a turn starts are the ones the model asks for, in order: all those of every answer before the last,
      and the last answer's up to where it was cut. */
  lemma {:induction false} CallsRunInOrder(p: Progress, rounds: seq<Round>, maxSteps: nat)
    requires |rounds| == maxSteps + 2 && Sane(p, maxSteps) && InOrder(p, rounds, maxSteps) && Carried(p, rounds)
    ensures Carried(Finish(p, rounds, maxSteps), rounds)
    decreases maxSteps + 2 - p.attempts
  {
    if |p.started| < maxSteps && p.attempts < maxSteps + 2 {
      var o := AfterRound(p, rounds[p.attempts], maxSteps);
      RoundAdvances(p, rounds[p.attempts], maxSteps);
      RoundKeepsOrder(p, rounds, maxSteps);
      RoundStarts(p, rounds[p.attempts], maxSteps);
      if !o.ended { CallsRunInOrder(o.p, rounds, maxSteps); }
    }
  }

  /** A turn starts at most `maxSteps` calls, and none four times in a row. */
  lemma {:induction false} NoCallLoops(p: Progress, rounds: seq<Round>, maxSteps: nat)
    requires |rounds| == maxSteps + 2 && Sane(p, maxSteps)
    ensures var q := Finish(p, rounds, maxSteps); |q.started| <= maxSteps && NoLoop(q.started)
    decreases maxSteps + 2 - p.attempts
  {
    if |p.started| < maxSteps && p.attempts < maxSteps + 2 {
      var o := AfterRound(p, rounds[p.attempts], maxSteps);
      RoundAdvances(p, rounds[p.attempts], maxSteps);
      RoundStarts(p, rounds[p.attempts], maxSteps);
      if !o.ended { NoCallLoops(o.p, rounds, maxSteps); }
    }
  }

  lemma AskNeverGoesBack(p: Progress, r: Round, maxSteps: nat)
    ensures AfterRound(p, r, maxSteps).p.attempts >= p.attempts
  {
    var o := Ask(p, r);
    if !o.ended && r.answer.Tools? { CallsKeepCounters(o.p, r.answer.calls, 0, maxSteps); }
  }

  // ---------------------------------------------------------------------------
  // Why a turn ends.

  /** A round after which the loop may go on. */
  ghost predicate GoesOn(r: Round) { !r.stop && r.allowed && !r.stopAfter && !r.answer.Complete? && !StopsInCalls(r.answer) }

  ghost predicate StopsInCalls(a: Answer) { a.Tools? && a.valid && exists c | c in a.calls :: c.stop || c.cancelled }

  /** A call that would be the fourth of its kind in a row. */
  predicate Repeated(started: seq<Signature>, s: Signature) {
    var n := |started|;
    n >= MAX_REPEAT && started[n - 1] == started[n - 2] == started[n - 3] == s
  }

  predicate SentBack(a: Answer) { a.Tools? && !a.valid }

  function Malformeds(rounds: seq<Round>, n: nat): nat
    requires n <= |rounds|
  {
    if n == 0 then 0 else Malformeds(rounds, n - 1) + (if rounds[n - 1].answer.Malformed? then 1 else 0)
  }

  function Invalids(rounds: seq<Round>, n: nat): nat
    requires n <= |rounds|
  {
    if n == 0 then 0 else Invalids(rounds, n - 1) + (if SentBack(rounds[n - 1].answer) then 1 else 0)
  }

  /** A final answer, an accepted plain one, a third malformed or invalid one, or a call about to repeat. */
  ghost predicate Concludes(a: Answer, malformed: nat, invalid: nat, started: seq<Signature>) {
    match a
    case Complete => true
    case Malformed(plain) => (plain && started != [] && malformed > 0) || malformed >= MAX_PROTOCOL_RETRIES
    case Tools(calls, valid) => if valid then exists c | c in calls :: Repeated(started, c.signature) else invalid >= MAX_TOOL_ARGUMENT_RETRIES
  }

  function Last(p: Progress): Event
    requires p.events != []
  {
    p.events[|p.events| - 1]
  }

  /** Why an answer ended the turn, given how many earlier ones were sent back. */
  ghost predicate EndsBy(q: Progress, a: Answer, malformed: nat, invalid: nat) {
    && q.events != []
    && (Last(q).Cancelled? || Last(q).Final?)
    && (Last(q).Cancelled? ==> StopsInCalls(a))
    && (Last(q).Final? ==> Concludes(a, malformed, invalid, q.started))
  }

  lemma {:induction false} CallsExplain(p: Progress, calls: seq<Call>, i: nat, maxSteps: nat, malformed: nat, invalid: nat)
    requires i <= |calls| && Sane(p, maxSteps)
    ensures var o := AfterCalls(p, calls, i, maxSteps); o.ended ==> EndsBy(o.p, Tools(calls, true), malformed, invalid)
    ensures var o := AfterCalls(p, calls, i, maxSteps);
      !o.ended && |o.p.started| < maxSteps ==> forall k | i <= k < |calls| :: !calls[k].stop && !calls[k].cancelled
    decreases |calls| - i
  {
    if i < |calls| {
      TailOfThree(p.started);
      assert calls[i] in calls;
      var o := AfterCall(p, calls[i], maxSteps);
      if !o.ended && !o.full {
        LaunchKeeps(p, calls[i], maxSteps);
        CallsExplain(o.p, calls, i + 1, maxSteps, malformed, invalid);
      }
    }
  }

  /** Why a round ended the turn, or why it did not. */
  lemma RoundExplains(p: Progress, r: Round, maxSteps: nat)
    requires Sane(p, maxSteps)
    ensures var o := AfterRound(p, r, maxSteps);
      && (o.ended && o.p.attempts == p.attempts ==> o.p.events != [] && Last(o.p).Cancelled? && (r.stop || !r.allowed))
      && (o.ended && o.p.attempts != p.attempts ==>
            || (r.stopAfter && o.p.events != [] && Last(o.p).Cancelled?)
            || EndsBy(o.p, r.answer, p.protocolRetries, p.argumentRetries))
      && (!o.ended && |o.p.started| < maxSteps ==> GoesOn(r))
      && (!o.ended ==> o.p.protocolRetries == p.protocolRetries + (if r.answer.Malformed? then 1 else 0)
                       && o.p.argumentRetries == p.argumentRetries + (if SentBack(r.answer) then 1 else 0))
  {
    var o := Ask(p, r);
    if !o.ended && r.answer.Tools? {
      assert Sane(o.p, maxSteps);
      CallsExplain(o.p, r.answer.calls, 0, maxSteps, p.protocolRetries, p.argumentRetries);
      CallsKeepCounters(o.p, r.answer.calls, 0, maxSteps);
    }
  }

  /** The counters, and the rounds the loop went through. */
  ghost predicate Recorded(p: Progress, rounds: seq<Round>, maxSteps: nat) {
    && p.attempts <= |rounds|
    && p.protocolRetries == Malformeds(rounds, p.attempts) && p.argumentRetries == Invalids(rounds, p.attempts)
    && (forall i: nat | i + 1 < p.attempts :: GoesOn(rounds[i]))
    && (|p.started| < maxSteps ==> forall i: nat | i < p.attempts :: GoesOn(rounds[i]))
  }

  /** The last event has its reason in the last round, or in the limits. */
  ghost predicate Explained(q: Progress, rounds: seq<Round>, maxSteps: nat) {
    && q.events != [] && q.attempts <= |rounds| && (forall i: nat | i + 1 < q.attempts :: GoesOn(rounds[i]))
    && match Last(q)
       case StepLimit => |q.started| == maxSteps || q.attempts == maxSteps + 2
       case Cancelled =>
         || (q.attempts < |rounds| && (rounds[q.attempts].stop || !rounds[q.attempts].allowed))
         || (q.attempts > 0 && (rounds[q.attempts - 1].stopAfter || StopsInCalls(rounds[q.attempts - 1].answer)))
       case Final =>
         q.attempts > 0
         && Concludes(rounds[q.attempts - 1].answer, Malformeds(rounds, q.attempts - 1), Invalids(rounds, q.attempts - 1), q.started)
       case _ => false
  }

  lemma RoundIsRecorded(p: Progress, rounds: seq<Round>, maxSteps: nat)
    requires |rounds| == maxSteps + 2 && Sane(p, maxSteps) && Recorded(p, rounds, maxSteps)
    requires |p.started| < maxSteps && p.attempts < maxSteps + 2
    ensures var o := AfterRound(p, rounds[p.attempts], maxSteps);
      if o.ended then Explained(o.p, rounds, maxSteps) else Recorded(o.p, rounds, maxSteps)
  {
    RoundAdvances(p, rounds[p.attempts], maxSteps);
    AskNeverGoesBack(p, rounds[p.attempts], maxSteps);
    RoundExplains(p, rounds[p.attempts], maxSteps);
  }

  /** Every turn ends for the reason its last event stands for, and no earlier round gave one. */
  lemma {:induction false} EndIsExplained(p: Progress, rounds: seq<Round>, maxSteps: nat)
    requires |rounds| == maxSteps + 2 && Sane(p, maxSteps) && Recorded(p, rounds, maxSteps)
    ensures Explained(Finish(p, rounds, maxSteps), rounds, maxSteps)
    decreases maxSteps + 2 - p.attempts
  {
    if |p.started| < maxSteps && p.attempts < maxSteps + 2 {
      var o := AfterRound(p, rounds[p.attempts], maxSteps);
      RoundAdvances(p, rounds[p.attempts], maxSteps);
      RoundIsRecorded(p, rounds, maxSteps);
      RoundStarts(p, rounds[p.attempts], maxSteps);
      if !o.ended { EndIsExplained(o.p, rounds, maxSteps); }
    }
  }

  /** All of it, for a whole turn. */
  lemma EngineTurn(rounds: seq<Round>, maxSteps: nat)
    requires |rounds| == maxSteps + 2
    ensures var q := Finish(Start, rounds, maxSteps);
      && EndsDecided(q.events) && Explained(q, rounds, maxSteps)
      && q.attempts == multiset(q.events)[ModelRequested] <= maxSteps + 2
      && multiset(q.events)[Retry] <= MAX_PROTOCOL_RETRIES + MAX_TOOL_ARGUMENT_RETRIES
      && |q.started| <= maxSteps && NoLoop(q.started) && Carried(q, rounds)
  {
    TurnEndsDecided(Start, rounds, maxSteps);
    EndIsExplained(Start, rounds, maxSteps);
    TurnIsBounded(Start, rounds, maxSteps);
    NoCallLoops(Start, rounds, maxSteps);
    CallsRunInOrder(Start, rounds, maxSteps);
  }
}
