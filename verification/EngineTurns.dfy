/** A turn of the runtime with the repository's own engine in it. */
module EngineTurns {
  import E = Engine
  import EP = EngineProofs
  import opened RunTurn
  import opened RunTurnProofs
  import opened Options

  /** The runtime builds its engine with this limit. */
  const MAX_STEPS := 50

  /** What the runtime sees of an engine event. */
  function Shown(e: E.Event): Event {
    match e
    case Final => Final
    case Error => ErrorEvent
    case Cancelled => CancelledEvent
    case StepLimit => StepLimitEvent
    case TextDelta => TextDelta
    case ModelRequested => Other("model_requested")
    case ModelParsed => Other("model_parsed")
    case Retry => Other("retry")
    case Context(kind) => Other(kind)
    case Tool(kind) => Other(kind)
  }

  /** What the engine emits when nothing raises. */
  function EngineEvents(rounds: seq<E.Round>): seq<E.Event>
    requires |rounds| == MAX_STEPS + 2
  {
    E.Finish(E.Start, rounds, MAX_STEPS).events
  }

  /**
   The engine stream is that of the engine's loop, cut short only by an exception.  Closing it always returns: its
   generator awaits nothing when it is closed at a yield, so no cancellation can land there.
   */
  predicate DrivenBy(w: World, rounds: seq<E.Round>) {
    && |rounds| == MAX_STEPS + 2
    && |w.items| <= |EngineEvents(rounds)|
    && (forall i | 0 <= i < |w.items| :: w.items[i].event == Shown(EngineEvents(rounds)[i]))
    && (|w.items| < |EngineEvents(rounds)| ==> w.engineFails)
    && w.closes
  }

  /** The preparation writes only its own kinds of events. */
  predicate Prepared(w: World) {
    && w.copyable
    && (forall i | 0 <= i < |w.prepared| :: w.prepared[i].TurnStarted? || w.prepared[i].Other?)
    && (forall i | 0 <= i < |w.contextEvents| :: w.contextEvents[i].event.Other?)
  }

  lemma EngineIsSensible(w: World, rounds: seq<E.Round>)
    requires Prepared(w) && DrivenBy(w, rounds)
    ensures Sensible(w) && Cleans(w)
  {
    forall i | 0 <= i < |w.items| ensures !Terminal(w.items[i].event) {
      assert w.items[i].event == Shown(EngineEvents(rounds)[i]);
    }
  }

  /** The items show these events, all of them. */
  predicate Shows(items: seq<EngineItem>, events: seq<E.Event>) {
    |items| == |events| && forall i | 0 <= i < |items| :: items[i].event == Shown(events[i])
  }

  lemma LastDecides(items: seq<EngineItem>, events: seq<E.Event>)
    requires Shows(items, events) && EP.EndsDecided(events)
    ensures exists i | 0 <= i < |items| :: RunTurnProofs.Decides(items[i].event)
  {
    var n := |items| - 1;
    assert items[n].event == Shown(events[n]);
    assert RunTurnProofs.Decides(items[n].event);
  }

  lemma EngineEndsDecided(rounds: seq<E.Round>)
    requires |rounds| == MAX_STEPS + 2
    ensures EP.EndsDecided(EngineEvents(rounds))
  {
    EP.EngineTurn(rounds, MAX_STEPS);
  }

  /** Whatever the model, the tools and the consumer do, a turn driven by the engine whose context can be copied is closed
      whole: one run_finished, one turn_finished, which is last, and a settled status. */
  lemma EngineTurnIsClosed(w: World, rounds: seq<E.Round>, mode: Mode, trace: seq<Event>)
    requires Prepared(w) && DrivenBy(w, rounds) && Plain(trace)
    ensures var left := TraceAfter(w, mode, trace);
      ClosedOnce(left) && left[|left| - 1] == TurnFinished && !StatusOf(left).Running?
  {
    EngineIsSensible(w, rounds);
    EngineEndsDecided(rounds);
    if !w.engineFails { LastDecides(w.items, EngineEvents(rounds)); }
    DecidedTurnIsClosed(w, mode, trace);
  }

  function StatusFor(last: E.Event): Status {
    match last
    case Final => Completed
    case StepLimit => StepLimit
    case _ => Cancelled
  }

  /** A turn that records its own run_finished with the status of the engine's last event, if neither the engine nor the
      diff failed. */
  lemma EngineDecidesTheStatus(w: World, rounds: seq<E.Round>, mode: Mode)
    requires Prepared(w) && DrivenBy(w, rounds) && Streams(w) && !w.engineFails && !w.diffFails
    requires w.cut >= |Body(w, mode)| + 1
    ensures var events := EngineEvents(rounds);
      events != [] && StatusOf(TraceAfter(w, mode, [])) == StatusFor(events[|events| - 1])
  {
    EngineIsSensible(w, rounds);
    EngineEndsDecided(rounds);
    var events := EngineEvents(rounds);
    var full := BodyTrace(w, mode, [] + w.prepared);
    BodyStatus(w, mode, events);
    TurnHasForm(w, mode, []);
    var e := EndingOf(w, mode, []);
    FormStatus(TraceAfter(w, mode, []), e.plain, e.status, e.between, e.after);
    assert e.status == StatusOf(full);
  }

  lemma BodyStatus(w: World, mode: Mode, events: seq<E.Event>)
    requires Sensible(w) && Shows(w.items, events) && EP.EndsDecided(events) && !w.engineFails && !w.diffFails
    ensures StatusOf(BodyTrace(w, mode, [] + w.prepared)) == StatusFor(events[|events| - 1])
  {
    var full := BodyTrace(w, mode, [] + w.prepared);
    FullPlain(w, mode, []);
    PlainStatus(full);
    ItemsDecide(w.items, events);
    BodyDecides(w, mode, Final);
    BodyDecides(w, mode, ErrorEvent);
    BodyDecides(w, mode, CancelledEvent);
    BodyDecides(w, mode, StepLimitEvent);
    assert forall e | RunTurnProofs.Decides(e) :: e in full <==> e in Durable(Body(w, mode));
  }

  /** The items hold the last event, and no other deciding one but the error before a cancellation. */
  lemma ItemsDecide(items: seq<EngineItem>, events: seq<E.Event>)
    requires Shows(items, events) && EP.EndsDecided(events)
    ensures var last, n := events[|events| - 1], |items|;
      && (HasItem(items, n, CancelledEvent) <==> last.Cancelled?)
      && (HasItem(items, n, Final) <==> last.Final?)
      && (HasItem(items, n, ErrorEvent) ==> last.Cancelled?)
      && (last.StepLimit? ==> HasItem(items, n, StepLimitEvent))
  {
    var n := |events| - 1;
    assert items[n].event == Shown(events[n]);
    forall i | 0 <= i < n && RunTurnProofs.Decides(items[i].event)
      ensures items[i].event.ErrorEvent? && events[n].Cancelled?
    {
      assert items[i].event == Shown(events[i]);
      OnlyLastDecides(events, i);
    }
  }

  lemma OnlyLastDecides(events: seq<E.Event>, i: nat)
    requires EP.EndsDecided(events) && i < |events| - 1
    ensures EP.Decides(events[i]) ==> events[i].Error? && events[|events| - 1].Cancelled?
  {
    var n := |events| - 1;
    assert events[..n][i] == events[i];
    if i < n - 1 { assert events[..n - 1][i] == events[i]; }
  }
}
