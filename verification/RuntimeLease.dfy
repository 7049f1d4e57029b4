/**
 * The operation lease of one session's runtime (core/coding/runtime.py): any number of turns, externally
 * coordinated turns, manual compactions and model switches, interleaved at their awaits. Testing the lock and
 * acquiring it are separate steps, so several tasks may pass the test and wait for the same lock.
 */
module RuntimeLease {
  import PyText
  import opened Options

  type Id = nat

  /** What a switch replaces. */
  datatype Client = Client(model: int, factory: int, spec: string, reasoning: string, policy: Option<int>, controller: Option<int>)

  datatype Kind = RunTurn(runId: string) | HarnessTurn(runId: string) | ManualCompact

  /** `Inside` remembers the client found on entry; `Gone` tasks died without giving the lock back. */
  datatype Pc = Waiting | Inside(found: Client) | Gone | Refused | Ended

  datatype Task = Task(kind: Kind, pc: Pc)

  datatype State = State(locked: bool, holder: Id, active: Option<string>, client: Client, tasks: map<Id, Task>)

  datatype Step =
    | Call(id: Id, kind: Kind)
    | Acquire(id: Id, copyable: bool)
    | CancelWait(id: Id)
    | Leave(id: Id)
    | Abandon(id: Id)
    | SwitchModel(replacement: Option<Client>)
    | SwitchReasoning(mode: string, listed: set<string>, model: int)

  predicate Blank(s: string) { forall i | 0 <= i < |s| :: PyText.IsSpace(s[i]) }

  /** The tests made before the lock is awaited. */
  predicate Admitted(s: State, kind: Kind) {
    match kind
    case RunTurn(_) => s.active.None? && !s.locked
    case HarnessTurn(runId) => !Blank(runId) && s.active.None? && !s.locked
    case ManualCompact => s.client.controller.Some? && !s.locked
  }

  /** The test made after the lock has been acquired; `run_turn` makes none. */
  predicate Confirmed(s: State, kind: Kind) {
    kind.RunTurn? || s.active.None?
  }

  function Begin(kind: Kind, active: Option<string>): Option<string> {
    if kind.ManualCompact? then active else Some(kind.runId)
  }

  predicate At(s: State, id: Id, pc: Pc) { id in s.tasks && s.tasks[id].pc == pc }

  predicate IsInside(s: State, id: Id) { id in s.tasks && s.tasks[id].pc.Inside? }

  predicate Enabled(s: State, step: Step) {
    match step
    case Call(id, _) => id !in s.tasks
    case Acquire(id, _) => At(s, id, Waiting) && !s.locked
    case CancelWait(id) => At(s, id, Waiting)
    case Leave(id) => IsInside(s, id)
    case Abandon(id) => IsInside(s, id) && s.tasks[id].kind.RunTurn?
    case SwitchModel(_) => true
    case SwitchReasoning(_, _, _) => true
  }

  function Move(s: State, id: Id, pc: Pc): State
    requires id in s.tasks
  {
    s.(tasks := s.tasks[id := s.tasks[id].(pc := pc)])
  }

  function AcquireStep(s: State, id: Id, copyable: bool): State
    requires id in s.tasks
  {
    var kind := s.tasks[id].kind;
    if !Confirmed(s, kind) then Move(s, id, Refused)
    else if kind.RunTurn? && !copyable then Move(s, id, Gone).(locked := true, holder := id)
    else Move(s, id, Inside(s.client)).(locked := true, holder := id, active := Begin(kind, s.active))
  }

  function LeaveStep(s: State, id: Id): State
    requires id in s.tasks
  {
    Move(s, id, Ended).(locked := false, active := if s.tasks[id].kind.ManualCompact? then s.active else None)
  }

  predicate Busy(s: State) { s.active.Some? || s.locked }

  function SwitchReasoningStep(s: State, mode: string, listed: set<string>, model: int): State {
    if Busy(s) || (mode != "off" && mode !in listed) || mode == s.client.reasoning then s
    else s.(client := s.client.(model := model, reasoning := mode))
  }

  function Apply(s: State, step: Step): State
    requires Enabled(s, step)
  {
    match step
    case Call(id, kind) => s.(tasks := s.tasks[id := Task(kind, if Admitted(s, kind) then Waiting else Refused)])
    case Acquire(id, copyable) => AcquireStep(s, id, copyable)
    case CancelWait(id) => Move(s, id, Ended)
    case Leave(id) => LeaveStep(s, id)
    case Abandon(id) => Move(s, id, Gone)
    case SwitchModel(replacement) => if Busy(s) || replacement.None? then s else s.(client := replacement.value)
    case SwitchReasoning(mode, listed, model) => SwitchReasoningStep(s, mode, listed, model)
  }

  predicate Schedulable(s: State, steps: seq<Step>)
    decreases |steps|
  {
    steps == [] || (Enabled(s, steps[0]) && Schedulable(Apply(s, steps[0]), steps[1..]))
  }

  function Run(s: State, steps: seq<Step>): State
    requires Schedulable(s, steps)
    decreases |steps|
  {
    if steps == [] then s else Run(Apply(s, steps[0]), steps[1..])
  }

  predicate Initial(s: State) { !s.locked && s.active.None? && s.tasks == map[] }

  // ---- The invariant ----

  /** The holder is the one task that is inside, or one that died inside. */
  predicate HolderOk(s: State) {
    && s.locked ==> s.holder in s.tasks && (s.tasks[s.holder].pc.Inside? || s.tasks[s.holder].pc.Gone?)
  }

  predicate OthersOut(s: State) {
    forall id | id in s.tasks && (s.tasks[id].pc.Inside? || s.tasks[id].pc.Gone?) :: s.locked && s.holder == id
  }

  /** An active run belongs to the holder, and a turn that is inside is the active run. */
  predicate ActiveOk(s: State) {
    && (s.active.Some? ==> s.locked && s.holder in s.tasks && Begin(s.tasks[s.holder].kind, None) == s.active)
    && (s.locked && s.holder in s.tasks && s.tasks[s.holder].pc.Inside? ==> s.active == Begin(s.tasks[s.holder].kind, None))
  }

  /** Whoever is inside still sees the client found on entry. */
  predicate ClientOk(s: State) {
    forall id | id in s.tasks && s.tasks[id].pc.Inside? :: s.tasks[id].pc.found == s.client
  }

  predicate Inv(s: State) { HolderOk(s) && OthersOut(s) && ActiveOk(s) && ClientOk(s) }

  lemma StepKeepsInv(s: State, step: Step)
    requires Inv(s) && Enabled(s, step)
    ensures Inv(Apply(s, step))
  {
    match step {
      case Call(id, kind) =>
      case Acquire(id, copyable) =>
      case CancelWait(id) =>
      case Leave(id) =>
      case Abandon(id) =>
      case SwitchModel(_) =>
      case SwitchReasoning(_, _, _) =>
    }
  }

  lemma {:induction false} RunKeepsInv(s: State, steps: seq<Step>)
    requires Inv(s) && Schedulable(s, steps)
    ensures Inv(Run(s, steps))
    decreases |steps|
  {
    if steps != [] {
      StepKeepsInv(s, steps[0]);
      RunKeepsInv(Apply(s, steps[0]), steps[1..]);
    }
  }

  // ---- The theorems, for every schedule from the start ----

  /** At most one task is inside, and then it holds the lock. */
  lemma MutualExclusion(s: State, steps: seq<Step>, a: Id, b: Id)
    requires Initial(s) && Schedulable(s, steps)
    requires IsInside(Run(s, steps), a) && IsInside(Run(s, steps), b)
    ensures a == b && Run(s, steps).locked && Run(s, steps).holder == a
  {
    RunKeepsInv(s, steps);
  }

  /** A run is active only while the lock is held by the turn of that very run. */
  lemma ActiveRunHoldsTheLock(s: State, steps: seq<Step>)
    requires Initial(s) && Schedulable(s, steps)
    ensures var t := Run(s, steps);
            t.active.Some? ==> t.locked && t.holder in t.tasks && !t.tasks[t.holder].kind.ManualCompact? && t.tasks[t.holder].kind.runId == t.active.value
  {
    RunKeepsInv(s, steps);
  }

  /** A task sees one client from its entry to its end: no step that starts while the lock is held changes it. */
  lemma ClientIsFixedWhileInside(s: State, steps: seq<Step>, id: Id, step: Step)
    requires Initial(s) && Schedulable(s, steps) && IsInside(Run(s, steps), id) && Enabled(Run(s, steps), step)
    ensures Apply(Run(s, steps), step).client == Run(s, steps).client == Run(s, steps).tasks[id].pc.found
  {
    RunKeepsInv(s, steps);
    LockedKeepsClient(Run(s, steps), step);
  }

  /** While the lock is held, even by a task that died, nothing switches the client. */
  lemma LockedKeepsClient(s: State, step: Step)
    requires s.locked && Enabled(s, step)
    ensures Apply(s, step).client == s.client
  {
  }

  /**
   * Whoever acquires the lock gets in: the second look at the active run, which `harness_turn` and
   * `manual_compact` take and `run_turn` does not, never finds one.
   */
  lemma SecondLookNeverFires(s: State, steps: seq<Step>, id: Id)
    requires Initial(s) && Schedulable(s, steps) && Enabled(Run(s, steps), Acquire(id, true))
    ensures IsInside(Apply(Run(s, steps), Acquire(id, true)), id)
  {
    RunKeepsInv(s, steps);
  }

  /** A call is refused, its own arguments and configuration aside, exactly when the lock is held. */
  lemma RefusedExactlyWhenLocked(s: State, steps: seq<Step>, kind: Kind)
    requires Initial(s) && Schedulable(s, steps)
    requires kind.HarnessTurn? ==> !Blank(kind.runId)
    requires kind.ManualCompact? ==> Run(s, steps).client.controller.Some?
    ensures Admitted(Run(s, steps), kind) <==> !Run(s, steps).locked
  {
    RunKeepsInv(s, steps);
  }

  predicate NoLoss(steps: seq<Step>) {
    forall i | 0 <= i < |steps| :: !steps[i].Abandon? && (steps[i].Acquire? ==> steps[i].copyable)
  }

  predicate NobodyGone(s: State) { forall id | id in s.tasks :: !s.tasks[id].pc.Gone? }

  lemma {:induction false} NobodyGoes(s: State, steps: seq<Step>)
    requires Inv(s) && NobodyGone(s) && Schedulable(s, steps) && NoLoss(steps)
    ensures Inv(Run(s, steps)) && NobodyGone(Run(s, steps))
    decreases |steps|
  {
    if steps != [] {
      StepKeepsInv(s, steps[0]);
      NobodyGoes(Apply(s, steps[0]), steps[1..]);
    }
  }

  /** Unless a turn dies holding the lock, the lock is held exactly while some task is inside. */
  lemma LockIsGivenBack(s: State, steps: seq<Step>)
    requires Initial(s) && Schedulable(s, steps) && NoLoss(steps)
    ensures Run(s, steps).locked <==> exists id | id in Run(s, steps).tasks :: IsInside(Run(s, steps), id)
  {
    NobodyGoes(s, steps);
    var t := Run(s, steps);
    if t.locked {
      assert IsInside(t, t.holder);
    }
  }

  /** Once a turn dies holding the lock, the session stays locked, refuses every later call and keeps its client. */
  lemma {:induction false} LostLockIsForever(s: State, steps: seq<Step>, id: Id)
    requires Inv(s) && At(s, id, Gone) && Schedulable(s, steps)
    ensures var t := Run(s, steps);
            && At(t, id, Gone) && t.locked && t.holder == id
            && t.client == s.client
            && (forall kind :: !Admitted(t, kind))
    decreases |steps|
  {
    if steps != [] {
      StepKeepsInv(s, steps[0]);
      LockedKeepsClient(s, steps[0]);
      var t := Apply(s, steps[0]);
      assert At(t, id, Gone);
      LostLockIsForever(t, steps[1..], id);
    }
  }

  /** A turn whose surface context cannot be copied takes the lock and dies: whatever follows is refused. */
  lemma UncopyableContextLocksTheSession(s: State, more: seq<Step>)
    requires Initial(s)
    ensures var steps := [Call(0, RunTurn("r")), Acquire(0, false)];
            && Schedulable(s, steps)
            && (Schedulable(Run(s, steps), more) ==> Run(Run(s, steps), more).locked && forall kind :: !Admitted(Run(Run(s, steps), more), kind))
  {
    var steps := [Call(0, RunTurn("r")), Acquire(0, false)];
    assert steps[1..] == [Acquire(0, false)] && steps[1..][1..] == [];
    RunKeepsInv(s, steps);
    if Schedulable(Run(s, steps), more) {
      LostLockIsForever(Run(s, steps), more, 0);
    }
  }

  /** So does a turn that is cancelled while the closing of its engine stream awaits something; the repository's own
      engine awaits nothing there. */
  lemma CancelledCloseLocksTheSession(s: State, more: seq<Step>)
    requires Initial(s)
    ensures var steps := [Call(0, RunTurn("r")), Acquire(0, true), Abandon(0)];
            && Schedulable(s, steps)
            && (Schedulable(Run(s, steps), more) ==> Run(Run(s, steps), more).locked && forall kind :: !Admitted(Run(Run(s, steps), more), kind))
  {
    var steps := [Call(0, RunTurn("r")), Acquire(0, true), Abandon(0)];
    assert steps[1..] == [Acquire(0, true), Abandon(0)] && steps[1..][1..] == [Abandon(0)] && steps[1..][1..][1..] == [];
    RunKeepsInv(s, steps);
    if Schedulable(Run(s, steps), more) {
      LostLockIsForever(Run(s, steps), more, 0);
    }
  }
}
