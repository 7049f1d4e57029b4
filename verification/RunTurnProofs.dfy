/** However a turn ends, what its trace says. */
module RunTurnProofs {
  import opened RunTurn
  import opened Options

  /** The engine and the context never emit the two closing events; the preparation writes only its own kinds. */
  predicate Sensible(w: World) {
    && (forall i | 0 <= i < |w.prepared| :: w.prepared[i].TurnStarted? || w.prepared[i].Other?)
    && (forall i | 0 <= i < |w.contextEvents| :: w.contextEvents[i].event.Other?)
    && (forall i | 0 <= i < |w.items| :: !Terminal(w.items[i].event))
  }

  /** The turn reaches the part that streams. */
  predicate Streams(w: World) { w.copyable && w.preparation.Ready? && w.builds }

  /** The lock is given back at the end. */
  predicate Cleans(w: World) { w.copyable && (Streams(w) ==> w.closes) }

  /** Exactly one run_finished and one turn_finished, in this order. */
  ghost predicate ClosedOnce(trace: seq<Event>) {
    exists i, j | 0 <= i < j < |trace| :: ClosedAt(trace, i, j)
  }

  ghost predicate ClosedAt(trace: seq<Event>, i: nat, j: nat)
    requires i < j < |trace|
  {
    trace[i].RunFinished? && trace[j].TurnFinished? && forall k | 0 <= k < |trace| && k != i && k != j :: !Terminal(trace[k])
  }

  predicate PlainEmissions(emissions: seq<Emission>) {
    forall i | 0 <= i < |emissions| :: !Terminal(emissions[i].event)
  }

  lemma {:induction false} DurablePlain(emissions: seq<Emission>)
    requires PlainEmissions(emissions)
    ensures Plain(Durable(emissions))
  {
    if emissions != [] {
      DurablePlain(emissions[..|emissions| - 1]);
    }
  }

  lemma {:induction false} EnginePlain(watch: Watch, items: seq<EngineItem>, n: nat)
    requires n <= |items| && forall i | 0 <= i < |items| :: !Terminal(items[i].event)
    ensures PlainEmissions(EngineEmissions(watch, items, n))
  {
    if n > 0 {
      EnginePlain(watch, items, n - 1);
      assert !Terminal(items[n - 1].event);
    }
  }

  lemma BodyPlain(w: World, mode: Mode)
    requires Sensible(w)
    ensures PlainEmissions(Body(w, mode))
  {
    EnginePlain(Watch(mode, None), w.items, |w.items|);
  }

  // ---- The three ways the streaming part is cut ----

  /** The trace of a whole body. */
  function BodyTrace(w: World, mode: Mode, ready: seq<Event>): seq<Event> {
    ready + Durable(Body(w, mode))
  }

  lemma CutBody(w: World, mode: Mode, ready: seq<Event>)
    requires Sensible(w) && w.cut <= |Body(w, mode)| && Plain(ready)
    ensures Plain(ready + Durable(Take(Script(w, mode, ready), w.cut)))
  {
    BodyPlain(w, mode);
    var cut := Take(Script(w, mode, ready), w.cut);
    assert cut == Body(w, mode)[..w.cut];
    DurablePlain(cut);
  }

  lemma CutAfterRunFinished(w: World, mode: Mode, ready: seq<Event>)
    requires w.cut == |Body(w, mode)| + 1
    ensures ready + Durable(Take(Script(w, mode, ready), w.cut))
            == BodyTrace(w, mode, ready) + [RunFinished(StatusOf(BodyTrace(w, mode, ready)))]
  {
    var status := StatusOf(BodyTrace(w, mode, ready));
    var last := Emission(RunFinished(status), true);
    assert Take(Script(w, mode, ready), w.cut) == Body(w, mode) + [last];
    assert (Body(w, mode) + [last])[..|Body(w, mode)|] == Body(w, mode);
  }

  lemma NoCut(w: World, mode: Mode, ready: seq<Event>)
    requires w.cut >= |Body(w, mode)| + 2
    ensures ready + Durable(Take(Script(w, mode, ready), w.cut))
            == BodyTrace(w, mode, ready) + [RunFinished(StatusOf(BodyTrace(w, mode, ready))), TurnFinished]
  {
    var status := StatusOf(BodyTrace(w, mode, ready));
    var a, b := Emission(RunFinished(status), true), Emission(TurnFinished, true);
    var n := |Body(w, mode)|;
    var all := Body(w, mode) + [a, b];
    assert Take(Script(w, mode, ready), w.cut) == all;
    assert all[..n + 1] == Body(w, mode) + [a];
    assert (Body(w, mode) + [a])[..n] == Body(w, mode);
    assert Durable(all[..n + 1]) == Durable(Body(w, mode)) + [RunFinished(status)];
  }

  // ---- What closing adds ----

  predicate Undecided(trace: seq<Event>) {
    CancelledEvent !in trace && ErrorEvent !in trace && Final !in trace && StepLimitEvent !in trace
  }

  function Late(status: Status, trace: seq<Event>): seq<Event> {
    if status.Cancelled? && CancelledEvent !in trace then [CancelledEvent] else []
  }

  function Settled(status: Status): Status { if status.Running? then Cancelled else status }

  lemma PlainStatus(trace: seq<Event>)
    requires Plain(trace)
    ensures !HasRunFinished(trace) && TurnFinished !in trace
    ensures StatusOf(trace).Running? <==> Undecided(trace)
    ensures StatusOf(trace).Cancelled? <==> CancelledEvent in trace
  {
    assert forall i | 0 <= i < |trace| :: !Terminal(trace[i]);
  }

  lemma CloseAll(trace: seq<Event>, forced: Option<Status>)
    requires Plain(trace)
    ensures var status := Settled(if forced.Some? then forced.value else StatusOf(trace));
            Closing(trace, forced) == Late(status, trace) + [RunFinished(status), TurnFinished]
  {
    PlainStatus(trace);
  }

  lemma CloseTurn(trace: seq<Event>, status: Status)
    requires Plain(trace)
    ensures Closing(trace + [RunFinished(status)], None) == Late(Settled(status), trace) + [TurnFinished]
  {
    PlainStatus(trace);
    var more := trace + [RunFinished(status)];
    assert more[|trace|].RunFinished?;
    assert StatusOf(more) == status;
    assert CancelledEvent in more <==> CancelledEvent in trace;
  }

  lemma CloseNothing(trace: seq<Event>, status: Status)
    requires Plain(trace)
    ensures Closing(trace + [RunFinished(status), TurnFinished], None) == Late(Settled(status), trace)
  {
    PlainStatus(trace);
    var more := trace + [RunFinished(status), TurnFinished];
    assert more[|trace|].RunFinished? && more[|trace| + 1] == TurnFinished;
    assert more[..|trace| + 1] == trace + [RunFinished(status)];
    assert LastStatus(more[..|trace| + 1]) == status;
    assert CancelledEvent in more <==> CancelledEvent in trace;
  }

  // ---- One form for every ending ----

  /** A plain trace, run_finished, perhaps a late cancelled event, turn_finished, perhaps a late cancelled event. */
  ghost predicate Form(trace: seq<Event>, plain: seq<Event>, status: Status, between: seq<Event>, after: seq<Event>) {
    && Plain(plain) && (between == [] || between == [CancelledEvent]) && (after == [] || after == [CancelledEvent])
    && trace == plain + [RunFinished(status)] + between + [TurnFinished] + after
  }

  lemma FormIsClosedOnce(trace: seq<Event>, plain: seq<Event>, status: Status, between: seq<Event>, after: seq<Event>)
    requires Form(trace, plain, status, between, after)
    ensures ClosedOnce(trace)
  {
    var i, j := |plain|, |plain| + 1 + |between|;
    assert ClosedAt(trace, i, j);
  }

  lemma FormStatus(trace: seq<Event>, plain: seq<Event>, status: Status, between: seq<Event>, after: seq<Event>)
    requires Form(trace, plain, status, between, after)
    ensures StatusOf(trace) == status
  {
    var head := plain + [RunFinished(status)];
    assert trace[|plain|].RunFinished?;
    StatusSkips(head, between + [TurnFinished] + after, status);
    assert trace == head + (between + [TurnFinished] + after);
  }

  lemma {:induction false} StatusSkips(head: seq<Event>, tail: seq<Event>, status: Status)
    requires |head| > 0 && head[|head| - 1] == RunFinished(status)
    requires forall i | 0 <= i < |tail| :: !tail[i].RunFinished?
    ensures HasRunFinished(head + tail) && LastStatus(head + tail) == status
    decreases |tail|
  {
    var all := head + tail;
    assert all[|head| - 1].RunFinished?;
    if tail != [] {
      assert all[..|all| - 1] == head + tail[..|tail| - 1];
      StatusSkips(head, tail[..|tail| - 1], status);
    }
  }

  /** Where the turn ended: the plain part, the recorded status, and what came late. */
  datatype Ending = Ending(plain: seq<Event>, status: Status, between: seq<Event>, after: seq<Event>)

  function Joined(plain: seq<Event>, status: Status): Ending {
    Ending(plain + Late(status, plain), status, [], [])
  }

  function EndingOf(w: World, mode: Mode, trace: seq<Event>): Ending {
    var ready := trace + w.prepared;
    if w.preparation.Interrupted? then Joined(ready, Cancelled)
    else if w.preparation.Broken? || !w.builds then Joined(ready + [ErrorEvent], Failed)
    else
      var n := |Body(w, mode)|;
      var full := BodyTrace(w, mode, ready);
      if w.cut <= n
      then var cut := ready + Durable(Take(Script(w, mode, ready), w.cut)); Joined(cut, Settled(StatusOf(cut)))
      else if w.cut == n + 1 then Ending(full, StatusOf(full), Late(Settled(StatusOf(full)), full), [])
      else Ending(full, StatusOf(full), [], Late(Settled(StatusOf(full)), full))
  }

  /** `left` with what closing adds to it has the form of `e`. */
  ghost predicate ClosesTo(left: seq<Event>, e: Ending) {
    Form(left + Closing(left, None), e.plain, e.status, e.between, e.after)
  }

  lemma CutForm(left: seq<Event>)
    requires Plain(left)
    ensures ClosesTo(left, Joined(left, Settled(StatusOf(left))))
  {
    var status := Settled(StatusOf(left));
    CloseAll(left, None);
    assert left + (Late(status, left) + [RunFinished(status), TurnFinished])
        == (left + Late(status, left)) + [RunFinished(status)] + [] + [TurnFinished] + [];
  }

  lemma HalfClosedForm(full: seq<Event>, status: Status)
    requires Plain(full)
    ensures ClosesTo(full + [RunFinished(status)], Ending(full, status, Late(Settled(status), full), []))
  {
    var late := Late(Settled(status), full);
    CloseTurn(full, status);
    assert full + [RunFinished(status)] + (late + [TurnFinished]) == full + [RunFinished(status)] + late + [TurnFinished] + [];
  }

  lemma ClosedForm(full: seq<Event>, status: Status)
    requires Plain(full)
    ensures ClosesTo(full + [RunFinished(status), TurnFinished], Ending(full, status, [], Late(Settled(status), full)))
  {
    var late := Late(Settled(status), full);
    CloseNothing(full, status);
    assert full + [RunFinished(status), TurnFinished] + late == full + [RunFinished(status)] + [] + [TurnFinished] + late;
  }

  lemma StreamedForm(w: World, mode: Mode, trace: seq<Event>)
    requires Sensible(w) && Streams(w) && w.closes && Plain(trace)
    ensures var e := EndingOf(w, mode, trace);
            Form(TraceAfter(w, mode, trace), e.plain, e.status, e.between, e.after)
  {
    var ready := trace + w.prepared;
    var left := ready + Durable(Take(Script(w, mode, ready), w.cut));
    var full := BodyTrace(w, mode, ready);
    assert TraceAfter(w, mode, trace) == left + Closing(left, None);
    if w.cut <= |Body(w, mode)| {
      CutBody(w, mode, ready);
      CutForm(left);
    } else {
      FullPlain(w, mode, trace);
      if w.cut == |Body(w, mode)| + 1 {
        CutAfterRunFinished(w, mode, ready);
        HalfClosedForm(full, StatusOf(full));
      } else {
        NoCut(w, mode, ready);
        ClosedForm(full, StatusOf(full));
      }
    }
  }

  lemma FullPlain(w: World, mode: Mode, trace: seq<Event>)
    requires Sensible(w) && Plain(trace)
    ensures Plain(BodyTrace(w, mode, trace + w.prepared))
  {
    BodyPlain(w, mode);
    DurablePlain(Body(w, mode));
  }

  lemma TurnHasForm(w: World, mode: Mode, trace: seq<Event>)
    requires Sensible(w) && Cleans(w) && Plain(trace)
    ensures var e := EndingOf(w, mode, trace);
            Form(TraceAfter(w, mode, trace), e.plain, e.status, e.between, e.after)
  {
    var ready := trace + w.prepared;
    if Streams(w) {
      StreamedForm(w, mode, trace);
    } else if w.preparation.Interrupted? {
      CloseAll(ready, Some(Cancelled));
    } else {
      CloseAll(ready + [ErrorEvent], Some(Failed));
    }
  }

  // ---- The theorems ----

  /**
   * A turn that is not refused leaves exactly one run_finished and one turn_finished, in this order, exactly when
   * its surface context can be copied and, if it streams, the engine stream closes or nothing was cut.
   */
  lemma TurnClosesOnceIff(w: World, mode: Mode, trace: seq<Event>)
    requires Sensible(w) && Plain(trace)
    ensures ClosedOnce(TraceAfter(w, mode, trace))
            <==> w.copyable && (Streams(w) ==> w.closes || w.cut >= |Body(w, mode)| + 2)
  {
    var ready := trace + w.prepared;
    if !w.copyable {
      assert !ClosedOnce(trace);
    } else if Cleans(w) {
      var e := EndingOf(w, mode, trace);
      TurnHasForm(w, mode, trace);
      FormIsClosedOnce(TraceAfter(w, mode, trace), e.plain, e.status, e.between, e.after);
    } else {
      NotClosed(w, mode, trace);
    }
  }

  lemma NotClosed(w: World, mode: Mode, trace: seq<Event>)
    requires Sensible(w) && Plain(trace) && Streams(w) && !w.closes
    ensures ClosedOnce(TraceAfter(w, mode, trace)) <==> w.cut >= |Body(w, mode)| + 2
  {
    var ready := trace + w.prepared;
    var n := |Body(w, mode)|;
    BodyPlain(w, mode);
    DurablePlain(Body(w, mode));
    var full := BodyTrace(w, mode, ready);
    assert Plain(ready) && Plain(full);
    var left := TraceAfter(w, mode, trace);
    if w.cut <= n {
      CutBody(w, mode, ready);
      assert Plain(left);
    } else if w.cut == n + 1 {
      CutAfterRunFinished(w, mode, ready);
      assert forall k | 0 <= k < |left| :: !left[k].TurnFinished?;
    } else {
      NoCut(w, mode, ready);
      assert left == full + [RunFinished(StatusOf(full))] + [] + [TurnFinished] + [];
      FormIsClosedOnce(left, full, StatusOf(full), [], []);
    }
  }

  /** The body ran to its end without a final, error, cancelled or step_limit event. */
  predicate EndsUndecided(w: World, mode: Mode, trace: seq<Event>) {
    Streams(w) && Undecided(BodyTrace(w, mode, trace + w.prepared))
  }

  /** turn_finished is the last event unless an undecided turn ran to its end: then a cancelled event follows it. */
  lemma TurnFinishedIsLastIff(w: World, mode: Mode, trace: seq<Event>)
    requires Sensible(w) && Cleans(w) && Plain(trace)
    ensures var left := TraceAfter(w, mode, trace);
            && |left| > 0
            && (left[|left| - 1] == TurnFinished <==> !(EndsUndecided(w, mode, trace) && w.cut >= |Body(w, mode)| + 2))
  {
    TurnHasForm(w, mode, trace);
    LateIff(w, mode, trace);
  }

  lemma LateIff(w: World, mode: Mode, trace: seq<Event>)
    requires Sensible(w) && Cleans(w) && Plain(trace)
    ensures var e, n := EndingOf(w, mode, trace), |Body(w, mode)|;
            && (e.after != [] <==> EndsUndecided(w, mode, trace) && w.cut >= n + 2)
            && (e.status.Running? <==> EndsUndecided(w, mode, trace) && w.cut >= n + 1)
  {
    if Streams(w) {
      var full := BodyTrace(w, mode, trace + w.prepared);
      BodyPlain(w, mode);
      DurablePlain(Body(w, mode));
      assert Plain(full);
      PlainStatus(full);
    }
  }

  /** The recorded status stays "running" exactly when an undecided turn got as far as its own run_finished. */
  lemma StuckRunningIff(w: World, mode: Mode, trace: seq<Event>)
    requires Sensible(w) && Cleans(w) && Plain(trace)
    ensures StatusOf(TraceAfter(w, mode, trace)).Running? <==> EndsUndecided(w, mode, trace) && w.cut >= |Body(w, mode)| + 1
  {
    var e := EndingOf(w, mode, trace);
    TurnHasForm(w, mode, trace);
    FormStatus(TraceAfter(w, mode, trace), e.plain, e.status, e.between, e.after);
    LateIff(w, mode, trace);
  }

  /** Otherwise the status is "cancelled" exactly when the trace holds a cancelled event. */
  lemma CancelledMeansCancelled(w: World, mode: Mode)
    requires Sensible(w) && Cleans(w) && !(EndsUndecided(w, mode, []) && w.cut >= |Body(w, mode)| + 1)
    ensures StatusOf(TraceAfter(w, mode, [])).Cancelled? <==> CancelledEvent in TraceAfter(w, mode, [])
  {
    var e := EndingOf(w, mode, []);
    var left := TraceAfter(w, mode, []);
    TurnHasForm(w, mode, []);
    FormStatus(left, e.plain, e.status, e.between, e.after);
    LateIff(w, mode, []);
    NothingLate(w, mode);
    EndingIsConsistent(w, mode);
    assert left == e.plain + [RunFinished(e.status)] + [] + [TurnFinished] + [];
    assert CancelledEvent in left <==> CancelledEvent in e.plain;
  }

  lemma NothingLate(w: World, mode: Mode)
    requires Sensible(w) && Cleans(w) && !(EndsUndecided(w, mode, []) && w.cut >= |Body(w, mode)| + 1)
    ensures EndingOf(w, mode, []).between == [] && EndingOf(w, mode, []).after == []
  {
    if Streams(w) {
      BodyPlain(w, mode);
      DurablePlain(Body(w, mode));
      var full := BodyTrace(w, mode, [] + w.prepared);
      assert Plain(full);
      PlainStatus(full);
    }
  }

  lemma EndingIsConsistent(w: World, mode: Mode)
    requires Sensible(w) && Cleans(w) && !(EndsUndecided(w, mode, []) && w.cut >= |Body(w, mode)| + 1)
    ensures EndingOf(w, mode, []).status.Cancelled? <==> CancelledEvent in EndingOf(w, mode, []).plain
  {
    var ready := [] + w.prepared;
    assert ready == w.prepared && Plain(ready) && CancelledEvent !in ready;
    if Streams(w) {
      var body := ready + Durable(Take(Script(w, mode, ready), w.cut));
      if w.cut <= |Body(w, mode)| {
        CutBody(w, mode, ready);
        PlainStatus(body);
      } else {
        BodyPlain(w, mode);
        DurablePlain(Body(w, mode));
        PlainStatus(BodyTrace(w, mode, ready));
      }
    }
  }

  // ---- Engines that say how they end ----

  predicate Decides(e: Event) { e.Final? || e.ErrorEvent? || e.CancelledEvent? || e.StepLimitEvent? }

  predicate HasItem(items: seq<EngineItem>, n: nat, e: Event)
    requires n <= |items|
  {
    exists i | 0 <= i < n :: items[i].event == e
  }

  lemma DurableItem(watch: Watch, item: EngineItem, e: Event)
    requires Decides(e)
    ensures e in Durable(ItemEmissions(watch, item)) <==> item.event == e
  {
    var event := [Emission(item.event, !item.event.TextDelta?)];
    var mode := Part(item.mode != watch.mode, Emission(ModeChanged(item.mode), true));
    var review := ReviewPart(watch, item);
    DurableConcat(event + mode, review);
    DurableConcat(event, mode);
    NoticesDecideNothing(watch, item, e);
    DurableOne(event);
    assert Durable(ItemEmissions(watch, item)) == Durable(event) + Durable(mode) + Durable(review);
    InFour(Durable(event), Durable(mode), Durable(review), [], e);
  }

  lemma NoticesDecideNothing(watch: Watch, item: EngineItem, e: Event)
    requires Decides(e)
    ensures e !in Durable(Part(item.mode != watch.mode, Emission(ModeChanged(item.mode), true))) && e !in Durable(ReviewPart(watch, item))
  {
    DurableOne(Part(item.mode != watch.mode, Emission(ModeChanged(item.mode), true)));
    DurableOne(ReviewPart(watch, item));
  }

  lemma DurableOne(emissions: seq<Emission>)
    requires |emissions| <= 1
    ensures Durable(emissions) == if emissions != [] && emissions[0].durable then [emissions[0].event] else []
  {
    if emissions != [] { assert emissions[..0] == []; }
  }

  lemma HasItemNext(items: seq<EngineItem>, n: nat, e: Event)
    requires 0 < n <= |items|
    ensures HasItem(items, n, e) <==> HasItem(items, n - 1, e) || items[n - 1].event == e
  {
  }

  /** The trace of the engine loop decides the turn as the engine's own events do. */
  lemma {:induction false} EngineDecides(watch: Watch, items: seq<EngineItem>, n: nat, e: Event)
    requires n <= |items| && Decides(e)
    ensures e in Durable(EngineEmissions(watch, items, n)) <==> HasItem(items, n, e)
  {
    if n > 0 {
      var seen := WatchAfter(watch, items, n - 1);
      EngineDecides(watch, items, n - 1, e);
      DurableItem(seen, items[n - 1], e);
      DurableConcat(EngineEmissions(watch, items, n - 1), ItemEmissions(seen, items[n - 1]));
      InFour(Durable(EngineEmissions(watch, items, n - 1)), Durable(ItemEmissions(seen, items[n - 1])), [], [], e);
      HasItemNext(items, n, e);
    }
  }

  lemma DurableOfFour(a: seq<Emission>, b: seq<Emission>, c: seq<Emission>, d: seq<Emission>)
    ensures Durable(a + b + c + d) == Durable(a) + Durable(b) + Durable(c) + Durable(d)
  {
    DurableConcat(a, b);
    DurableConcat(a + b, c);
    DurableConcat(a + b + c, d);
  }

  lemma DurableEnd(w: World, e: Event)
    requires Decides(e)
    ensures e in Durable(Part(w.engineFails, Emission(ErrorEvent, true))) <==> e.ErrorEvent? && w.engineFails
    ensures e in Durable([Emission(if w.diffFails then ErrorEvent else DiffReady, true)]) <==> e.ErrorEvent? && w.diffFails
  {
    DurableOne(Part(w.engineFails, Emission(ErrorEvent, true)));
    DurableOne([Emission(if w.diffFails then ErrorEvent else DiffReady, true)]);
  }

  /** Which deciding events the whole body leaves in the trace. */
  lemma BodyDecides(w: World, mode: Mode, e: Event)
    requires Sensible(w) && Decides(e)
    ensures e in Durable(Body(w, mode)) <==> HasItem(w.items, |w.items|, e) || (e.ErrorEvent? && (w.engineFails || w.diffFails))
  {
    var engine := EngineEmissions(Watch(mode, None), w.items, |w.items|);
    var failure := Part(w.engineFails, Emission(ErrorEvent, true));
    var diff := [Emission(if w.diffFails then ErrorEvent else DiffReady, true)];
    EngineDecides(Watch(mode, None), w.items, |w.items|, e);
    ContextDecidesNothing(w.contextEvents, e);
    DurableEnd(w, e);
    DurableOfFour(w.contextEvents, engine, failure, diff);
    var a, b, c, d := Durable(w.contextEvents), Durable(engine), Durable(failure), Durable(diff);
    assert Durable(Body(w, mode)) == a + b + c + d;
    InFour(a, b, c, d, e);
  }

  lemma InFour(a: seq<Event>, b: seq<Event>, c: seq<Event>, d: seq<Event>, e: Event)
    ensures e in a + b + c + d <==> e in a || e in b || e in c || e in d
    ensures d == [] ==> (e in a + b + c <==> e in a || e in b || e in c)
    ensures e in a + b <==> e in a || e in b
  {
  }

  lemma {:induction false} ContextDecidesNothing(emissions: seq<Emission>, e: Event)
    requires (forall i | 0 <= i < |emissions| :: emissions[i].event.Other?) && Decides(e)
    ensures e !in Durable(emissions)
  {
    if emissions != [] { ContextDecidesNothing(emissions[..|emissions| - 1], e); }
  }

  /** A turn ends undecided exactly when it streams, nothing fails, and its engine emits no deciding event. */
  lemma EndsUndecidedIff(w: World, mode: Mode, trace: seq<Event>)
    requires Sensible(w) && Undecided(trace)
    ensures EndsUndecided(w, mode, trace)
            <==> Streams(w) && !w.engineFails && !w.diffFails && forall i | 0 <= i < |w.items| :: !Decides(w.items[i].event)
  {
    BodyDecides(w, mode, Final);
    BodyDecides(w, mode, ErrorEvent);
    BodyDecides(w, mode, CancelledEvent);
    BodyDecides(w, mode, StepLimitEvent);
    assert Undecided(w.prepared);
  }

  /** A turn whose engine ends with a deciding event, or fails, is closed whole: its status is settled and
      turn_finished is the last event. */
  lemma DecidedTurnIsClosed(w: World, mode: Mode, trace: seq<Event>)
    requires Sensible(w) && Cleans(w) && Plain(trace)
    requires w.engineFails || exists i | 0 <= i < |w.items| :: Decides(w.items[i].event)
    ensures var left := TraceAfter(w, mode, trace);
      ClosedOnce(left) && left[|left| - 1] == TurnFinished && !StatusOf(left).Running?
  {
    BodyDecides(w, mode, Final);
    BodyDecides(w, mode, ErrorEvent);
    BodyDecides(w, mode, CancelledEvent);
    BodyDecides(w, mode, StepLimitEvent);
    assert !EndsUndecided(w, mode, trace);
    TurnClosesOnceIff(w, mode, trace);
    TurnFinishedIsLastIff(w, mode, trace);
    StuckRunningIff(w, mode, trace);
  }

  /** A turn whose engine, unlike the repository's own, streams one piece of text and ends without saying how. */
  function SilentWorld(cut: nat, closes: bool): World {
    World(true, Ready, [TurnStarted], true, [], [EngineItem(TextDelta, Default, Default, None)], false, false, cut, closes)
  }

  lemma SilentBody()
    ensures forall cut: nat, closes ::
      Body(SilentWorld(cut, closes), Default) == [Emission(TextDelta, false), Emission(DiffReady, true)]
    ensures forall cut: nat, closes :: Durable(Body(SilentWorld(cut, closes), Default)) == [DiffReady]
  {
    var body := [Emission(TextDelta, false), Emission(DiffReady, true)];
    assert body[..1] == [Emission(TextDelta, false)] && body[..1][..0] == [];
    var w := SilentWorld(0, true);
    assert EngineEmissions(Watch(Default, None), w.items, 1) == [Emission(TextDelta, false)];
  }

  /** What is on file when that turn's stream has ended. */
  lemma SilentStream()
    ensures var w := SilentWorld(9, true);
            var ready := [] + w.prepared;
            ready + Durable(Take(Script(w, Default, ready), w.cut)) == [TurnStarted, DiffReady] + [RunFinished(Running), TurnFinished]
  {
    var w, full := SilentWorld(9, true), [TurnStarted, DiffReady];
    SilentBody();
    assert [] + w.prepared == [TurnStarted];
    assert BodyTrace(w, Default, [TurnStarted]) == full;
    PlainStatus(full);
    NoCut(w, Default, [TurnStarted]);
  }

  /** That turn records the status "running" for good, and a cancelled event after turn_finished. */
  lemma SilentTurnStaysRunning()
    ensures TraceAfter(SilentWorld(9, true), Default, []) == [TurnStarted, DiffReady, RunFinished(Running), TurnFinished, CancelledEvent]
    ensures StatusOf([TurnStarted, DiffReady, RunFinished(Running), TurnFinished, CancelledEvent]).Running?
  {
    var full := [TurnStarted, DiffReady];
    SilentStream();
    CloseNothing(full, Running);
    FormStatus(full + [RunFinished(Running)] + [] + [TurnFinished] + [CancelledEvent], full, Running, [], [CancelledEvent]);
    assert full + [RunFinished(Running)] + [] + [TurnFinished] + [CancelledEvent] == [TurnStarted, DiffReady, RunFinished(Running), TurnFinished, CancelledEvent];
  }

  /** The same turn cancelled while the closing of its engine stream awaits something: neither closing event is written. */
  lemma CancelledCloseLeavesTheTurnOpen()
    ensures TraceAfter(SilentWorld(1, false), Default, []) == [TurnStarted]
  {
    var w := SilentWorld(1, false);
    SilentBody();
    var cut := Take(Script(w, Default, [TurnStarted]), 1);
    assert cut == [Emission(TextDelta, false)] && cut[..0] == [];
    assert [] + w.prepared == [TurnStarted];
  }
}
