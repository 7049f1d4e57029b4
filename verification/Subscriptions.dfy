/**
 Live subscriptions to the journal: replay, drop-oldest queues, polling and gap repair,
 with any number of subscribers, broadcasts that are late, stale or lost, and journal
 writers in other processes.
 */
module Subscriptions {

  /** The event at index i of the journal has sequence i + 1. */
  datatype Event = Event(sequence: nat, body: int)

  const PAGE_LIMIT := 500

  datatype Phase =
    | Replay                                          // catching up to the registration high-water mark
    | ReplayPage(items: seq<Event>)                   // yielding a page read by Replay
    | Live                                            // waiting on the queue or the poll timeout
    | Repair(target: nat)                             // closing a gap up to `target`
    | RepairPage(target: nat, items: seq<Event>)      // yielding a page read by Repair
    | Broken                                          // "journal sequence gap could not be repaired"

  /** `received` is what the generator has yielded so far. */
  datatype Sub = Sub(after: nat, cursor: nat, highWater: nat, queue: seq<Event>, phase: Phase, received: seq<Event>)

  datatype State = State(capacity: nat, log: seq<Event>, lastBroadcast: nat, subs: map<nat, Sub>)

  datatype Step =
    | Append(body: int)                               // any writer, in this process or another
    | Broadcast(sequence: nat)                        // `_broadcast` of some stored event, in any order
    | Subscribe(id: nat, after: nat, highWater: nat)
    | Fetch(id: nat)                                  // read one journal page
    | Yield(id: nat)                                  // yield the next event of the page
    | Take(id: nat)                                   // `queue.get()` completed
    | Lose(id: nat)                                   // the timeout discards the head of the queue
    | Poll(id: nat)                                   // the timeout expired
    | Close(id: nat)

  function Page(log: seq<Event>, after: nat): seq<Event> {
    if after >= |log| then [] else if after + PAGE_LIMIT <= |log| then log[after..after + PAGE_LIMIT] else log[after..]
  }

  /** `tuple(item for item in page.items if item.sequence <= bound)` */
  function UpTo(items: seq<Event>, bound: nat): seq<Event> {
    if items == [] then [] else (if items[0].sequence <= bound then [items[0]] else []) + UpTo(items[1..], bound)
  }

  /** Put into a bounded queue, dropping the oldest event when it is full. */
  function Push(queue: seq<Event>, capacity: nat, e: Event): seq<Event> {
    (if |queue| >= capacity && queue != [] then queue[1..] else queue) + [e]
  }

  predicate Enabled(s: State, step: Step) {
    match step
    case Append(_) => true
    case Broadcast(n) => 1 <= n <= |s.log|
    case Subscribe(id, _, hw) => id !in s.subs && hw <= |s.log|
    case Fetch(id) => id in s.subs && (s.subs[id].phase.Replay? || s.subs[id].phase.Repair?)
    case Yield(id) => id in s.subs && (s.subs[id].phase.ReplayPage? || s.subs[id].phase.RepairPage?) && s.subs[id].phase.items != []
    case Take(id) => id in s.subs && s.subs[id].phase.Live? && s.subs[id].queue != []
    case Lose(id) => id in s.subs && s.subs[id].phase.Live? && s.subs[id].queue != []
    case Poll(id) => id in s.subs && s.subs[id].phase.Live?
    case Close(id) => id in s.subs
  }

  function Deliver(sub: Sub, e: Event): Sub {
    sub.(cursor := e.sequence, received := sub.received + [e])
  }

  function FetchPage(log: seq<Event>, sub: Sub): Sub
    requires sub.phase.Replay? || sub.phase.Repair?
  {
    if sub.phase.Replay? then
      if sub.cursor >= sub.highWater then sub.(phase := Live)
      else
        var items := UpTo(Page(log, sub.cursor), sub.highWater);
        sub.(phase := if items == [] then Live else ReplayPage(items))
    else
      if sub.cursor >= sub.phase.target then sub.(phase := Live)
      else
        var items := UpTo(Page(log, sub.cursor), sub.phase.target);
        sub.(phase := if items == [] then Broken else RepairPage(sub.phase.target, items))
  }

  function YieldNext(sub: Sub): Sub
    requires (sub.phase.ReplayPage? || sub.phase.RepairPage?) && sub.phase.items != []
  {
    var rest := sub.phase.items[1..];
    var next :=
      if sub.phase.ReplayPage? then (if rest == [] then Replay else ReplayPage(rest))
      else if rest == [] then Repair(sub.phase.target) else RepairPage(sub.phase.target, rest);
    Deliver(sub, sub.phase.items[0]).(phase := next)
  }

  function TakeHead(sub: Sub): Sub
    requires sub.queue != []
  {
    var e := sub.queue[0];
    var sub := sub.(queue := sub.queue[1..]);
    if e.sequence <= sub.cursor then sub
    else if e.sequence == sub.cursor + 1 then Deliver(sub, e)
    else sub.(phase := Repair(e.sequence))
  }

  function PollJournal(log: seq<Event>, sub: Sub): Sub {
    if |log| <= sub.cursor then sub else sub.(phase := Repair(|log|))
  }

  function Apply(s: State, step: Step): State
    requires Enabled(s, step)
  {
    match step
    case Append(body) => s.(log := s.log + [Event(|s.log| + 1, body)])
    case Broadcast(n) =>
      if s.log[n - 1].sequence <= s.lastBroadcast then s
      else
        s.(lastBroadcast := s.log[n - 1].sequence,
           subs := map id | id in s.subs :: s.subs[id].(queue := Push(s.subs[id].queue, s.capacity, s.log[n - 1])))
    case Subscribe(id, after, hw) => s.(subs := s.subs[id := Sub(after, after, hw, [], Replay, [])])
    case Fetch(id) => s.(subs := s.subs[id := FetchPage(s.log, s.subs[id])])
    case Yield(id) => s.(subs := s.subs[id := YieldNext(s.subs[id])])
    case Take(id) => s.(subs := s.subs[id := TakeHead(s.subs[id])])
    case Lose(id) => s.(subs := s.subs[id := s.subs[id].(queue := s.subs[id].queue[1..])])
    case Poll(id) => s.(subs := s.subs[id := PollJournal(s.log, s.subs[id])])
    case Close(id) => s.(subs := s.subs - {id})
  }

  predicate Schedulable(s: State, steps: seq<Step>)
    decreases |steps|
  {
    steps == [] || (Enabled(s, steps[0]) && Schedulable(Apply(s, steps[0]), steps[1..]))
  }

  function Run(s: State, steps: seq<Step>): State
    requires Schedulable(s, steps)
    decreases |steps|
  {
    if steps == [] then s else Run(Apply(s, steps[0]), steps[1..])
  }

  function Init(capacity: nat): State { State(capacity, [], 0, map[]) }

  // ---------------------------------------------------------------------------

  ghost predicate Numbered(log: seq<Event>) {
    forall i :: 0 <= i < |log| ==> log[i].sequence == i + 1
  }

  /** The journal events after `after`, up to and including sequence `upTo`. */
  function Slice(log: seq<Event>, after: nat, upTo: nat): seq<Event> {
    if after < upTo <= |log| then log[after..upTo] else []
  }

  predicate Stored(log: seq<Event>, e: Event) {
    1 <= e.sequence <= |log| && log[e.sequence - 1] == e
  }

  /** A page in flight continues the journal right after the cursor. */
  ghost predicate PageOk(log: seq<Event>, cursor: nat, items: seq<Event>, bound: nat) {
    cursor + |items| <= bound <= |log| && items != [] && items == log[cursor..cursor + |items|]
  }

  ghost predicate SubOk(log: seq<Event>, capacity: nat, sub: Sub) {
    && sub.after <= sub.cursor
    && (sub.after < sub.cursor ==> sub.cursor <= |log|)
    && sub.received == Slice(log, sub.after, sub.cursor)
    && sub.highWater <= |log|
    && |sub.queue| <= capacity
    && (forall i :: 0 <= i < |sub.queue| ==> Stored(log, sub.queue[i]))
    && match sub.phase
       case Replay => true
       case Live => true
       case ReplayPage(items) => PageOk(log, sub.cursor, items, sub.highWater)
       case Repair(target) => target <= |log|
       case RepairPage(target, items) => PageOk(log, sub.cursor, items, target)
       case Broken => false
  }

  ghost predicate Inv(s: State) {
    && 1 <= s.capacity
    && Numbered(s.log)
    && s.lastBroadcast <= |s.log|
    && forall id :: id in s.subs ==> SubOk(s.log, s.capacity, s.subs[id])
  }

  lemma {:induction false} UpToIsPrefix(items: seq<Event>, first: nat, bound: nat)
    requires forall i :: 0 <= i < |items| ==> items[i].sequence == first + i
    ensures UpTo(items, bound) == if bound < first then [] else if bound - first + 1 < |items| then items[..bound - first + 1] else items
    decreases |items|
  {
    if items != [] {
      UpToIsPrefix(items[1..], first + 1, bound);
      if first <= bound {
        assert items == [items[0]] + items[1..];
        if bound - first + 1 < |items| {
          assert items[..bound - first + 1] == [items[0]] + items[1..][..bound - first];
        }
      }
    }
  }

  lemma PageIsJournal(log: seq<Event>, cursor: nat, bound: nat)
    requires Numbered(log) && cursor < bound <= |log|
    ensures PageOk(log, cursor, UpTo(Page(log, cursor), bound), bound)
  {
    var page := Page(log, cursor);
    UpToIsPrefix(page, cursor + 1, bound);
    var items := UpTo(page, bound);
    assert items == log[cursor..cursor + |items|];
  }

  lemma DeliverOk(log: seq<Event>, capacity: nat, sub: Sub, e: Event, phase: Phase)
    requires Numbered(log) && SubOk(log, capacity, sub) && Stored(log, e) && e.sequence == sub.cursor + 1
    requires SubOk(log, capacity, Sub(e.sequence, e.sequence, sub.highWater, sub.queue, phase, []))
    ensures SubOk(log, capacity, Deliver(sub, e).(phase := phase))
  {
    assert log[sub.after..e.sequence] == log[sub.after..sub.cursor] + [e];
  }

  lemma FetchKeeps(log: seq<Event>, capacity: nat, sub: Sub)
    requires Numbered(log) && SubOk(log, capacity, sub) && (sub.phase.Replay? || sub.phase.Repair?)
    ensures SubOk(log, capacity, FetchPage(log, sub))
  {
    var bound := if sub.phase.Replay? then sub.highWater else sub.phase.target;
    if sub.cursor < bound { PageIsJournal(log, sub.cursor, bound); }
  }

  lemma YieldKeeps(log: seq<Event>, capacity: nat, sub: Sub)
    requires Numbered(log) && SubOk(log, capacity, sub) && (sub.phase.ReplayPage? || sub.phase.RepairPage?)
    ensures SubOk(log, capacity, YieldNext(sub))
    ensures YieldNext(sub).cursor == sub.cursor + 1
  {
    var items := sub.phase.items;
    assert items[0] == log[sub.cursor];
    assert items[1..] == log[sub.cursor + 1..sub.cursor + |items|];
    DeliverOk(log, capacity, sub, items[0], YieldNext(sub).phase);
  }

  lemma TakeKeeps(log: seq<Event>, capacity: nat, sub: Sub)
    requires Numbered(log) && SubOk(log, capacity, sub) && sub.phase.Live? && sub.queue != []
    ensures SubOk(log, capacity, TakeHead(sub))
  {
    var e := sub.queue[0];
    var sub' := sub.(queue := sub.queue[1..]);
    assert SubOk(log, capacity, sub');
    if e.sequence == sub.cursor + 1 { DeliverOk(log, capacity, sub', e, Live); }
  }

  lemma AppendKeeps(log: seq<Event>, capacity: nat, sub: Sub, e: Event)
    requires SubOk(log, capacity, sub)
    ensures SubOk(log + [e], capacity, sub)
  {
    var log' := log + [e];
    if sub.after < sub.cursor { assert log'[sub.after..sub.cursor] == log[sub.after..sub.cursor]; }
    if sub.phase.ReplayPage? || sub.phase.RepairPage? {
      var items := sub.phase.items;
      assert log'[sub.cursor..sub.cursor + |items|] == log[sub.cursor..sub.cursor + |items|];
    }
  }

  lemma BroadcastKeeps(s: State, n: nat)
    requires Inv(s) && Enabled(s, Broadcast(n))
    ensures Inv(Apply(s, Broadcast(n)))
  {
    var s' := Apply(s, Broadcast(n));
    forall id | id in s'.subs ensures SubOk(s'.log, s'.capacity, s'.subs[id]) {
      assert SubOk(s.log, s.capacity, s.subs[id]);
    }
  }

  lemma AppendStepKeeps(s: State, body: int)
    requires Inv(s)
    ensures Inv(Apply(s, Append(body)))
  {
    var e := Event(|s.log| + 1, body);
    forall id | id in s.subs ensures SubOk(s.log + [e], s.capacity, s.subs[id]) {
      AppendKeeps(s.log, s.capacity, s.subs[id], e);
    }
  }

  /** A subscriber's own step changes only that subscriber. */
  lemma OwnStepKeeps(s: State, id: nat, sub: Sub)
    requires Inv(s) && SubOk(s.log, s.capacity, sub)
    ensures Inv(s.(subs := s.subs[id := sub]))
  {
  }

  lemma StepKeepsInv(s: State, step: Step)
    requires Inv(s) && Enabled(s, step)
    ensures Inv(Apply(s, step))
  {
    match step {
      case Append(body) => AppendStepKeeps(s, body);
      case Broadcast(n) => BroadcastKeeps(s, n);
      case Close(id) =>
      case Subscribe(id, after, hw) => OwnStepKeeps(s, id, Sub(after, after, hw, [], Replay, []));
      case Fetch(id) =>
        FetchKeeps(s.log, s.capacity, s.subs[id]);
        OwnStepKeeps(s, id, FetchPage(s.log, s.subs[id]));
      case Yield(id) =>
        YieldKeeps(s.log, s.capacity, s.subs[id]);
        OwnStepKeeps(s, id, YieldNext(s.subs[id]));
      case Take(id) =>
        TakeKeeps(s.log, s.capacity, s.subs[id]);
        OwnStepKeeps(s, id, TakeHead(s.subs[id]));
      case Lose(id) => OwnStepKeeps(s, id, s.subs[id].(queue := s.subs[id].queue[1..]));
      case Poll(id) => OwnStepKeeps(s, id, PollJournal(s.log, s.subs[id]));
    }
  }

  lemma {:induction false} RunKeepsInv(s: State, steps: seq<Step>)
    requires Inv(s) && Schedulable(s, steps)
    ensures Inv(Run(s, steps))
    decreases |steps|
  {
    if steps != [] {
      StepKeepsInv(s, steps[0]);
      RunKeepsInv(Apply(s, steps[0]), steps[1..]);
    }
  }

  /** At every point of every interleaving a subscriber has received exactly the journal
      slice between where it started and its cursor: in order, no gap, no repeat.  Its queue
      never exceeds the capacity and the unrepairable-gap error is never raised. */
  lemma SubscriberSeesTheJournal(capacity: nat, steps: seq<Step>, id: nat)
    requires 1 <= capacity && Schedulable(Init(capacity), steps) && id in Run(Init(capacity), steps).subs
    ensures var s := Run(Init(capacity), steps); var sub := s.subs[id];
      && sub.received == Slice(s.log, sub.after, sub.cursor)
      && (forall i :: 0 <= i < |sub.received| ==> sub.received[i].sequence == sub.after + 1 + i)
      && |sub.received| == sub.cursor - sub.after
      && |sub.queue| <= s.capacity
      && !sub.phase.Broken?
  {
    RunKeepsInv(Init(capacity), steps);
    assert SubOk(Run(Init(capacity), steps).log, Run(Init(capacity), steps).capacity, Run(Init(capacity), steps).subs[id]);
  }

  // ---------------------------------------------------------------------------
  // Progress.

  /** The journal position a subscriber is currently working towards. */
  function Goal(sub: Sub): nat {
    match sub.phase
    case Repair(target) => target
    case RepairPage(target, _) => target
    case ReplayPage(_) => sub.highWater
    case Replay => sub.highWater
    case _ => sub.cursor
  }

  /** How far a subscriber is from ending its current replay or repair. */
  function Remaining(sub: Sub): nat {
    if sub.phase.Live? || sub.phase.Broken? then 0
    else 2 * (if Goal(sub) > sub.cursor then Goal(sub) - sub.cursor else 0) + (if sub.phase.Replay? || sub.phase.Repair? then 1 else 0)
  }

  /** Each completed page read or yield brings the end of the replay or repair strictly
      closer; it ends only at its goal; and nobody else's step moves it. */
  lemma OwnStepShrinks(s: State, step: Step)
    requires Inv(s) && Enabled(s, step) && (step.Fetch? || step.Yield?)
    ensures var sub := s.subs[step.id]; var sub' := Apply(s, step).subs[step.id];
      && Remaining(sub') < Remaining(sub)
      && (sub'.phase.Live? ==> sub'.cursor >= Goal(sub))
      && (!sub'.phase.Live? ==> Goal(sub') == Goal(sub))
  {
    var sub := s.subs[step.id];
    if step.Fetch? {
      var bound := Goal(sub);
      if sub.cursor < bound { PageIsJournal(s.log, sub.cursor, bound); }
    } else {
      YieldKeeps(s.log, s.capacity, sub);
    }
  }

  lemma OthersDoNotInterfere(s: State, step: Step, id: nat)
    requires Enabled(s, step) && id in s.subs
    requires step.Append? || step.Broadcast? || (!step.Append? && !step.Broadcast? && step.id != id)
    ensures var s' := Apply(s, step);
      id in s'.subs && Remaining(s'.subs[id]) == Remaining(s.subs[id]) && Goal(s'.subs[id]) == Goal(s.subs[id])
      && s'.subs[id].cursor == s.subs[id].cursor && s'.subs[id].phase == s.subs[id].phase
  {
  }

  /** Left alone, a subscriber finishes its replay or repair in `Remaining` of its own steps. */
  lemma {:induction false} Finishes(s: State, id: nat) returns (steps: seq<Step>)
    requires Inv(s) && id in s.subs && !s.subs[id].phase.Live?
    ensures Schedulable(s, steps) && |steps| <= Remaining(s.subs[id])
    ensures var s' := Run(s, steps);
      s'.log == s.log && id in s'.subs && s'.subs[id].phase.Live? && s'.subs[id].cursor >= Goal(s.subs[id])
      && s'.subs[id].after == s.subs[id].after
    decreases Remaining(s.subs[id])
  {
    var sub := s.subs[id];
    assert SubOk(s.log, s.capacity, sub);
    var step := if sub.phase.Replay? || sub.phase.Repair? then Fetch(id) else Yield(id);
    OwnStepShrinks(s, step);
    StepKeepsInv(s, step);
    var s1 := Apply(s, step);
    if s1.subs[id].phase.Live? {
      steps := [step];
      assert steps[1..] == [];
    } else {
      var rest := Finishes(s1, id);
      steps := [step] + rest;
      assert steps[1..] == rest;
    }
  }

  /** Whatever was dropped from its queue or never broadcast, a live subscriber that is
      behind the journal catches up with it completely by one poll and its repair. */
  lemma PollCatchesUp(s: State, id: nat) returns (steps: seq<Step>)
    requires Inv(s) && id in s.subs && s.subs[id].phase.Live? && s.subs[id].cursor < |s.log|
    ensures Schedulable(s, steps) && |steps| <= 2 * (|s.log| - s.subs[id].cursor) + 2
    ensures var s' := Run(s, steps);
      && id in s'.subs && s'.subs[id].phase.Live? && s'.subs[id].cursor >= |s.log|
      && s'.subs[id].received == Slice(s.log, s.subs[id].after, |s.log|)
  {
    StepKeepsInv(s, Poll(id));
    var s1 := Apply(s, Poll(id));
    var rest := Finishes(s1, id);
    steps := [Poll(id)] + rest;
    assert steps[1..] == rest;
    RunKeepsInv(s1, rest);
    var s' := Run(s, steps);
    assert s' == Run(s1, rest);
    assert SubOk(s'.log, s'.capacity, s'.subs[id]);
  }

  // ---------------------------------------------------------------------------
  // The same for every schedule.

  predicate Own(step: Step, id: nat) {
    !step.Append? && !step.Broadcast? && step.id == id
  }

  /** How many of the steps are the subscriber's own. */
  function OwnSteps(steps: seq<Step>, id: nat): nat {
    if steps == [] then 0 else (if Own(steps[0], id) then 1 else 0) + OwnSteps(steps[1..], id)
  }

  predicate StaysOpen(steps: seq<Step>, id: nat) {
    forall i | 0 <= i < |steps| :: steps[i] != Close(id)
  }

  lemma StepGrowsCursor(s: State, step: Step, id: nat)
    requires Inv(s) && Enabled(s, step) && id in s.subs && step != Close(id)
    ensures var s' := Apply(s, step); id in s'.subs && s'.subs[id].cursor >= s.subs[id].cursor && s'.subs[id].after == s.subs[id].after
  {
    assert SubOk(s.log, s.capacity, s.subs[id]);
    if step.Yield? && step.id == id { YieldKeeps(s.log, s.capacity, s.subs[id]); }
  }

  lemma {:induction false} CursorOnlyGrows(s: State, steps: seq<Step>, id: nat)
    requires Inv(s) && Schedulable(s, steps) && id in s.subs && StaysOpen(steps, id)
    ensures var s' := Run(s, steps); id in s'.subs && s'.subs[id].cursor >= s.subs[id].cursor && s'.subs[id].after == s.subs[id].after
    decreases |steps|
  {
    if steps != [] {
      assert steps[0] != Close(id);
      StepGrowsCursor(s, steps[0], id);
      StepKeepsInv(s, steps[0]);
      CursorOnlyGrows(Apply(s, steps[0]), steps[1..], id);
    }
  }

  /** In every schedule in which a subscriber takes as many steps of its own as remain, whatever else happens in
      between, it reaches the goal of the replay or repair it was in. */
  lemma {:induction false} EveryScheduleFinishes(s: State, steps: seq<Step>, id: nat)
    requires Inv(s) && Schedulable(s, steps) && id in s.subs && StaysOpen(steps, id)
    requires OwnSteps(steps, id) >= Remaining(s.subs[id])
    ensures var s' := Run(s, steps);
      id in s'.subs && s'.subs[id].cursor >= Goal(s.subs[id]) && s'.subs[id].after == s.subs[id].after
    decreases |steps|
  {
    var sub := s.subs[id];
    assert SubOk(s.log, s.capacity, sub);
    if sub.phase.Live? {
      CursorOnlyGrows(s, steps, id);
    } else {
      var step, s1 := steps[0], Apply(s, steps[0]);
      assert step != Close(id);
      StepGrowsCursor(s, step, id);
      StepKeepsInv(s, step);
      if Own(step, id) {
        OwnStepShrinks(s, step);
        if s1.subs[id].phase.Live? {
          CursorOnlyGrows(s1, steps[1..], id);
        } else {
          EveryScheduleFinishes(s1, steps[1..], id);
        }
      } else {
        OthersDoNotInterfere(s, step, id);
        EveryScheduleFinishes(s1, steps[1..], id);
      }
    }
  }

  lemma {:induction false} LogOnlyGrows(s: State, steps: seq<Step>)
    requires Schedulable(s, steps)
    ensures s.log <= Run(s, steps).log
    decreases |steps|
  {
    if steps != [] { LogOnlyGrows(Apply(s, steps[0]), steps[1..]); }
  }

  /** Whatever was dropped or never broadcast: after a poll, every schedule in which the subscriber takes two steps
      per missing event and one more has delivered everything the journal held at the poll. */
  lemma EveryPollCatchesUp(s: State, steps: seq<Step>, id: nat)
    requires Inv(s) && id in s.subs && s.subs[id].phase.Live? && s.subs[id].cursor < |s.log|
    requires Schedulable(s, [Poll(id)] + steps) && StaysOpen(steps, id)
    requires OwnSteps(steps, id) >= 2 * (|s.log| - s.subs[id].cursor) + 1
    ensures var s' := Run(s, [Poll(id)] + steps);
      id in s'.subs && Slice(s.log, s.subs[id].after, |s.log|) <= s'.subs[id].received
  {
    var all, s1 := [Poll(id)] + steps, Apply(s, Poll(id));
    assert all[0] == Poll(id) && all[1..] == steps;
    StepKeepsInv(s, Poll(id));
    EveryScheduleFinishes(s1, steps, id);
    RunKeepsInv(s1, steps);
    LogOnlyGrows(s1, steps);
    var s' := Run(s1, steps);
    assert SubOk(s.log, s.capacity, s.subs[id]) && SubOk(s'.log, s'.capacity, s'.subs[id]);
    assert s'.log[s.subs[id].after..|s.log|] == s.log[s.subs[id].after..|s.log|];
  }
}
