/**
 * One coding turn (`run_turn` in core/coding/runtime.py): an async generator that the consumer may close at any
 * yield. What the outside does is an input: what the preparation, the engine, the diff and the closing of the
 * engine stream do, and after how many emitted events the turn is closed or cancelled.
 */
module RunTurn {
  import opened Options

  datatype Status = Completed | Failed | Cancelled | StepLimit | Running

  datatype Mode = Default | Plan

  /** Review ids are never empty; no review announced yet is `None`. */
  type Review = nat

  datatype Event =
    | TurnStarted
    | TextDelta
    | Final
    | ErrorEvent
    | CancelledEvent
    | StepLimitEvent
    | ModeChanged(mode: Mode)
    | PlanReady(review: Review)
    | DiffReady
    | Other(kind: string)
    | RunFinished(status: Status)
    | TurnFinished

  /** An event given to the consumer, and whether it goes to the run's trace first. */
  datatype Emission = Emission(event: Event, durable: bool)

  /** One engine event, the runtime mode and the open review read after its yield, and the mode read once more. */
  datatype EngineItem = EngineItem(event: Event, mode: Mode, settled: Mode, review: Option<Review>)

  datatype Preparation = Ready | Broken | Interrupted

  datatype World = World(
    copyable: bool,                // the surface context can be copied
    preparation: Preparation,      // how the first `try` block ends
    prepared: seq<Event>,          // what it wrote to the trace
    builds: bool,                  // the engine can be built
    contextEvents: seq<Emission>,  // events of the prepared context; compaction events are already in the trace
    items: seq<EngineItem>,
    engineFails: bool,             // the engine stream ends with an exception
    diffFails: bool,
    cut: nat,                      // closed or cancelled once this many events were emitted
    closes: bool)                  // closing the engine stream returns or raises an ordinary exception

  // ---- What a turn does, as values ----

  predicate Terminal(e: Event) { e.RunFinished? || e.TurnFinished? }

  predicate Plain(events: seq<Event>) {
    forall i | 0 <= i < |events| :: !Terminal(events[i])
  }

  /** The last recorded status, or the most telling event. */
  function StatusOf(trace: seq<Event>): Status {
    if exists i | 0 <= i < |trace| :: trace[i].RunFinished? then LastStatus(trace)
    else if CancelledEvent in trace then Cancelled
    else if ErrorEvent in trace then Failed
    else if Final in trace then Completed
    else if StepLimitEvent in trace then StepLimit
    else Running
  }

  function LastStatus(trace: seq<Event>): Status
    requires exists i | 0 <= i < |trace| :: trace[i].RunFinished?
  {
    var n := |trace| - 1;
    if trace[n].RunFinished? then trace[n].status else LastStatus(trace[..n])
  }

  predicate HasRunFinished(trace: seq<Event>) {
    exists i | 0 <= i < |trace| :: trace[i].RunFinished?
  }

  /** What `_persist_run_terminal` adds. */
  function Closing(trace: seq<Event>, forced: Option<Status>): seq<Event> {
    var found := if forced.Some? then forced.value else StatusOf(trace);
    var status := if found.Running? then Cancelled else found;
    (if status.Cancelled? && CancelledEvent !in trace then [CancelledEvent] else [])
    + (if HasRunFinished(trace) then [] else [RunFinished(status)])
    + (if TurnFinished in trace then [] else [TurnFinished])
  }

  function Failure(trace: seq<Event>): seq<Event> {
    [ErrorEvent] + Closing(trace + [ErrorEvent], Some(Failed))
  }

  /** The events of a list of emissions that are written to the trace. */
  function Durable(emissions: seq<Emission>): seq<Event> {
    if emissions == [] then []
    else
      var n := |emissions| - 1;
      Durable(emissions[..n]) + if emissions[n].durable then [emissions[n].event] else []
  }

  datatype Watch = Watch(mode: Mode, notified: Option<Review>)

  function AfterItem(watch: Watch, item: EngineItem): Watch {
    Watch(
      if item.mode != watch.mode then item.settled else watch.mode,
      if item.review.Some? then item.review else watch.notified)
  }

  function ItemEmissions(watch: Watch, item: EngineItem): seq<Emission> {
    [Emission(item.event, !item.event.TextDelta?)]
    + Part(item.mode != watch.mode, Emission(ModeChanged(item.mode), true))
    + ReviewPart(watch, item)
  }

  function Part(wanted: bool, e: Emission): seq<Emission> { if wanted then [e] else [] }

  function ReviewPart(watch: Watch, item: EngineItem): seq<Emission> {
    if item.review.Some? && item.review != watch.notified then [Emission(PlanReady(item.review.value), true)] else []
  }

  /** What is known and what was emitted after the first `n` engine items. */
  function WatchAfter(watch: Watch, items: seq<EngineItem>, n: nat): Watch
    requires n <= |items|
  {
    if n == 0 then watch else AfterItem(WatchAfter(watch, items, n - 1), items[n - 1])
  }

  function EngineEmissions(watch: Watch, items: seq<EngineItem>, n: nat): seq<Emission>
    requires n <= |items|
  {
    if n == 0 then [] else EngineEmissions(watch, items, n - 1) + ItemEmissions(WatchAfter(watch, items, n - 1), items[n - 1])
  }

  /** Everything before the closing events. */
  function Body(w: World, mode: Mode): seq<Emission> {
    w.contextEvents
    + EngineEmissions(Watch(mode, None), w.items, |w.items|)
    + Part(w.engineFails, Emission(ErrorEvent, true))
    + [Emission(if w.diffFails then ErrorEvent else DiffReady, true)]
  }

  /** A turn that nothing interrupts; `trace` is what is on file when its first event comes. */
  function Script(w: World, mode: Mode, trace: seq<Event>): seq<Emission> {
    Body(w, mode) + [Emission(RunFinished(StatusOf(trace + Durable(Body(w, mode)))), true), Emission(TurnFinished, true)]
  }

  function Take<T>(s: seq<T>, n: int): seq<T> {
    if n < 0 then [] else if n < |s| then s[..n] else s
  }

  /** The trace a turn leaves behind. */
  function TraceAfter(w: World, mode: Mode, trace: seq<Event>): seq<Event> {
    if !w.copyable then trace
    else
      var ready := trace + w.prepared;
      if w.preparation.Interrupted? then ready + Closing(ready, Some(Cancelled))
      else if w.preparation.Broken? || !w.builds then ready + Failure(ready)
      else
        var body := ready + Durable(Take(Script(w, mode, ready), w.cut));
        if w.closes then body + Closing(body, None) else body
  }

  // ---- Composing emissions ----

  /** `log` is `plan`, cut short where the turn was closed; `alive` says that it was not. */
  ghost predicate At(log: seq<Emission>, plan: seq<Emission>, cut: nat, alive: bool) {
    log == Take(plan, cut) && (alive <==> |plan| <= cut)
  }

  /** Once the plan is cut short, what would have come next does not matter. */
  lemma AtLonger(log: seq<Emission>, plan: seq<Emission>, more: seq<Emission>, cut: nat)
    requires At(log, plan, cut, false)
    ensures At(log, plan + more, cut, false)
  {}

  // ---- The turn as the program ----

  class Runtime {
    var active: Option<string>
    var locked: bool
    var stopRequested: bool
    var mode: Mode
    /** The trace of the run being modelled, and everything given to the consumer. */
    var trace: seq<Event>
    var streamed: seq<Emission>

    constructor (mode: Mode)
      ensures active == None && !locked && trace == [] && streamed == [] && this.mode == mode
    {
      active, locked, stopRequested := None, false, false;
      this.mode, trace, streamed := mode, [], [];
    }

    /** Write the event if it is durable, then yield it; refused once the turn has been closed. */
    method Emit(e: Emission, cut: nat, ghost base: seq<Event>) returns (alive: bool)
      requires |streamed| <= cut && trace == base + Durable(streamed)
      modifies this`trace, this`streamed
      ensures alive == (|old(streamed)| < cut)
      ensures streamed == if alive then old(streamed) + [e] else old(streamed)
      ensures trace == base + Durable(streamed)
    {
      if |streamed| == cut {
        return false;
      }
      if e.durable {
        trace := trace + [e.event];
      }
      streamed := streamed + [e];
      assert streamed[..|streamed| - 1] == old(streamed);
      return true;
    }

    /** Emit one more event if it is wanted and the turn is still open. */
    method EmitIf(wanted: bool, e: Emission, open: bool, cut: nat, ghost plan: seq<Emission>, ghost base: seq<Event>) returns (alive: bool)
      requires At(streamed, plan, cut, open) && trace == base + Durable(streamed)
      modifies this`trace, this`streamed
      ensures At(streamed, plan + Part(wanted, e), cut, alive)
      ensures trace == base + Durable(streamed)
    {
      alive := open;
      if open && wanted {
        alive := Emit(e, cut, base);
      }
    }

    method EmitContext(events: seq<Emission>, cut: nat, ghost base: seq<Event>) returns (alive: bool)
      requires streamed == [] && trace == base
      modifies this`trace, this`streamed
      ensures At(streamed, events, cut, alive)
      ensures trace == base + Durable(streamed)
    {
      alive := true;
      var i := 0;
      while i < |events|
        invariant 0 <= i <= |events| && streamed == events[..i] && |streamed| <= cut
        invariant trace == base + Durable(streamed)
      {
        alive := Emit(events[i], cut, base);
        if !alive {
          return;
        }
        i := i + 1;
      }
      assert events[..i] == events;
    }

    /** The engine loop: forward each event, then report a changed mode and a new review. */
    method EngineLoop(items: seq<EngineItem>, first: Watch, cut: nat, ghost base: seq<Event>) returns (alive: bool)
      requires |streamed| <= cut && trace == base + Durable(streamed)
      modifies this`trace, this`streamed
      ensures alive ==> streamed == old(streamed) + EngineEmissions(first, items, |items|) && |streamed| <= cut
      ensures !alive ==> At(streamed, old(streamed) + EngineEmissions(first, items, |items|), cut, false)
      ensures trace == base + Durable(streamed)
    {
      var watch := first;
      ghost var before := streamed;
      alive := true;
      var i := 0;
      while i < |items|
        invariant 0 <= i <= |items| && |streamed| <= cut
        invariant watch == WatchAfter(first, items, i)
        invariant streamed == before + EngineEmissions(first, items, i)
        invariant trace == base + Durable(streamed)
      {
        alive := ForwardNth(items, i, watch, cut, first, before, base);
        if !alive {
          return;
        }
        watch := AfterItem(watch, items[i]);
        i := i + 1;
      }
    }

    method ForwardNth(items: seq<EngineItem>, i: nat, watch: Watch, cut: nat, ghost first: Watch, ghost before: seq<Emission>, ghost base: seq<Event>)
      returns (alive: bool)
      requires i < |items| && watch == WatchAfter(first, items, i) && |streamed| <= cut
      requires streamed == before + EngineEmissions(first, items, i) && trace == base + Durable(streamed)
      modifies this`trace, this`streamed
      ensures alive ==> streamed == before + EngineEmissions(first, items, i + 1) && |streamed| <= cut
      ensures !alive ==> At(streamed, before + EngineEmissions(first, items, |items|), cut, false)
      ensures trace == base + Durable(streamed)
    {
      alive := ForwardItem(watch, items[i], cut, base);
      Regroup(before, EngineEmissions(first, items, i), ItemEmissions(watch, items[i]), []);
      if !alive {
        EngineCut(streamed, before, first, items, i + 1, cut);
      }
    }

    method ForwardItem(watch: Watch, item: EngineItem, cut: nat, ghost base: seq<Event>) returns (alive: bool)
      requires |streamed| <= cut && trace == base + Durable(streamed)
      modifies this`trace, this`streamed
      ensures At(streamed, old(streamed) + ItemEmissions(watch, item), cut, alive)
      ensures alive ==> streamed == old(streamed) + ItemEmissions(watch, item) && |streamed| <= cut
      ensures trace == base + Durable(streamed)
    {
      ghost var plan := streamed;
      var event, changed := Emission(item.event, !item.event.TextDelta?), Emission(ModeChanged(item.mode), true);
      alive := EmitIf(true, event, true, cut, plan, base);
      alive := EmitIf(item.mode != watch.mode, changed, alive, cut, plan + [event], base);
      ghost var sofar := plan + [event] + Part(item.mode != watch.mode, changed);
      if item.review.Some? && item.review != watch.notified {
        alive := EmitIf(true, Emission(PlanReady(item.review.value), true), alive, cut, sofar, base);
      }
      Regroup(plan, [event], Part(item.mode != watch.mode, changed), ReviewPart(watch, item));
    }

    /** The events before the closing ones. */
    method StreamBody(w: World) returns (alive: bool)
      requires streamed == []
      modifies this`trace, this`streamed
      ensures At(streamed, Body(w, mode), w.cut, alive)
      ensures trace == old(trace) + Durable(streamed)
    {
      ghost var base, body := trace, Body(w, mode);
      ghost var engine := w.contextEvents + EngineEmissions(Watch(mode, None), w.items, |w.items|);
      alive := EmitContext(w.contextEvents, w.cut, base);
      if !alive {
        AtLongerPrefix(streamed, w.contextEvents, body, w.cut);
        return;
      }
      alive := EngineLoop(w.items, Watch(mode, None), w.cut, base);
      if !alive {
        AtLongerPrefix(streamed, engine, body, w.cut);
        return;
      }
      alive := EmitIf(w.engineFails, Emission(ErrorEvent, true), true, w.cut, engine, base);
      ghost var sofar := engine + Part(w.engineFails, Emission(ErrorEvent, true));
      alive := EmitIf(true, Emission(if w.diffFails then ErrorEvent else DiffReady, true), alive, w.cut, sofar, base);
    }

    /** The second `try` block: every event of the turn until it ends or is closed. */
    method Stream(w: World)
      requires streamed == []
      modifies this`trace, this`streamed
      ensures streamed == Take(Script(w, mode, old(trace)), w.cut)
      ensures trace == old(trace) + Durable(streamed)
    {
      ghost var base, body := trace, Body(w, mode);
      var alive := StreamBody(w);
      var status := StatusOf(trace);
      ghost var full := StatusOf(base + Durable(body));
      ghost var first, second := Emission(RunFinished(status), true), Emission(TurnFinished, true);
      assert alive ==> streamed == body && status == full;
      alive := EmitIf(true, Emission(RunFinished(status), true), alive, w.cut, body, base);
      alive := EmitIf(true, Emission(TurnFinished, true), alive, w.cut, body + [first], base);
      EndsAsScripted(streamed, body, first, Emission(RunFinished(full), true), second, w.cut);
    }

    method PersistTerminal(forced: Option<Status>) returns (created: seq<Event>)
      modifies this`trace
      ensures created == Closing(old(trace), forced) && trace == old(trace) + created
    {
      var existing := trace;
      var status := if forced.Some? then forced.value else StatusOf(existing);
      if status.Running? {
        status := Cancelled;
      }
      created := [];
      if status.Cancelled? && CancelledEvent !in existing {
        trace := trace + [CancelledEvent];
        created := created + [CancelledEvent];
      }
      if !HasRunFinished(existing) {
        trace := trace + [RunFinished(status)];
        created := created + [RunFinished(status)];
      }
      if TurnFinished !in existing {
        trace := trace + [TurnFinished];
        created := created + [TurnFinished];
      }
    }

    method Release()
      modifies this`active, this`stopRequested, this`locked
      ensures active == None && !stopRequested && !locked
    {
      active, stopRequested := None, false;
      locked := false;
    }

    /** `run_turn`: refused while a run or another operation is active; otherwise the whole turn, however it ends. */
    method Turn(runId: string, w: World) returns (refused: bool)
      requires streamed == []
      modifies this`active, this`stopRequested, this`locked, this`trace, this`streamed
      ensures refused == (old(active).Some? || old(locked))
      ensures refused ==> active == old(active) && locked == old(locked) && trace == old(trace) && streamed == [Emission(ErrorEvent, false)]
      ensures !refused ==> trace == TraceAfter(w, mode, old(trace))
      ensures !refused && w.copyable && (w.closes || !w.preparation.Ready? || !w.builds) ==> active == None && !locked && !stopRequested
      ensures !refused && !(w.copyable && (w.closes || !w.preparation.Ready? || !w.builds)) ==> locked
    {
      if active.Some? || locked {
        streamed := streamed + [Emission(ErrorEvent, false)];
        return true;
      }
      refused := false;
      locked, stopRequested := true, false;
      if !w.copyable {
        return;
      }
      active := Some(runId);
      trace := trace + w.prepared;
      if w.preparation.Interrupted? {
        var _ := PersistTerminal(Some(Cancelled));
        Release();
        return;
      }
      if w.preparation.Broken? || !w.builds {
        ghost var ready := trace;
        trace := trace + [ErrorEvent];
        var created := PersistTerminal(Some(Failed));
        assert trace == ready + Failure(ready);
        Release();
        streamed := seq(|[ErrorEvent] + created|, i requires 0 <= i < |created| + 1 => Emission(([ErrorEvent] + created)[i], true));
        return;
      }
      Stream(w);
      if !w.closes {
        return;
      }
      var _ := PersistTerminal(None);
      Release();
    }
  }

  lemma Regroup<T>(a: seq<T>, b: seq<T>, c: seq<T>, d: seq<T>)
    ensures a + b + c + d == a + (b + c + d)
    ensures d == [] ==> a + b + c == a + (b + c) == a + (b + c + d)
  {}

  /** The status only matters to a turn that got as far as recording it. */
  lemma EndsAsScripted(log: seq<Emission>, body: seq<Emission>, first: Emission, scripted: Emission, second: Emission, cut: nat)
    requires log == Take(body + [first] + [second], cut) && (|body| <= cut ==> first == scripted)
    ensures log == Take(body + [scripted, second], cut)
  {
    if |body| <= cut {
      assert body + [first] + [second] == body + [scripted, second];
    } else {
      assert (body + [first] + [second])[..cut] == body[..cut] == (body + [scripted, second])[..cut];
    }
  }

  lemma AtLongerPrefix(log: seq<Emission>, plan: seq<Emission>, longer: seq<Emission>, cut: nat)
    requires At(log, plan, cut, false) && plan <= longer
    ensures At(log, longer, cut, false)
  {
    AtLonger(log, plan, longer[|plan|..], cut);
    assert plan + longer[|plan|..] == longer;
  }

  lemma {:induction false} DurableConcat(a: seq<Emission>, b: seq<Emission>)
    ensures Durable(a + b) == Durable(a) + Durable(b)
    decreases |b|
  {
    if b == [] {
      assert a + b == a;
    } else {
      assert (a + b)[..|a + b| - 1] == a + b[..|b| - 1];
      DurableConcat(a, b[..|b| - 1]);
    }
  }

  lemma EngineCut(log: seq<Emission>, before: seq<Emission>, watch: Watch, items: seq<EngineItem>, i: nat, cut: nat)
    requires i <= |items| && At(log, before + EngineEmissions(watch, items, i), cut, false)
    ensures At(log, before + EngineEmissions(watch, items, |items|), cut, false)
  {
    EngineEmissionsGrow(watch, items, i, |items|);
    AtLongerPrefix(log, before + EngineEmissions(watch, items, i), before + EngineEmissions(watch, items, |items|), cut);
  }

  lemma {:induction false} EngineEmissionsGrow(watch: Watch, items: seq<EngineItem>, i: nat, n: nat)
    requires i <= n <= |items|
    ensures EngineEmissions(watch, items, i) <= EngineEmissions(watch, items, n)
    decreases n
  {
    if i < n {
      EngineEmissionsGrow(watch, items, i, n - 1);
    }
  }
}
