/**
 The leases a suspended coordinator run can keep.  A consumer gives its lease back itself, unless the cancellation
 lands before its first step or while it waits to store its error terminal.  This module says exactly when the
 lease is then lost, and that it stays lost.
 */
module LostLeases {
  import opened Journal
  import opened Coordinator
  import opened CoordinatorProofs
  import opened Options

  /** What a delivered cancellation makes of a consumer: cut off before it began, cut off from its error write, or
      left to clean up after itself. */
  datatype Fate = Open | CutOff | CutFromError | CleansUp

  function FateOf(pc: Pc): Fate {
    match pc
    case Cleaning => CleansUp
    case Auditing(_) => CleansUp
    case Concluding(_) => CleansUp
    case Releasing => CleansUp
    case Leaving(how, _) => if how.Unstarted? then CutOff else if how.Abandoned? then CutFromError else CleansUp
    case Done(how, _) => if how.Unstarted? then CutOff else if how.Abandoned? then CutFromError else CleansUp
    case _ => Open
  }

  /** The write a consumer leaves behind when it is cut off from its error terminal. */
  function ErrorWrite(run: RunId, t: nat): Orphan { Orphan(run, Terminal(Error), t) }

  predicate IsCancelOf(call: Call, t: nat) { !call.suspend && call.token == t }

  predicate Over(call: Call) { call.pc.Finishing? || call.pc.Returned? || call.pc.Raised? }

  /** The consumer has not yet seen a terminal event stored. */
  predicate Early(pc: Pc) {
    || pc.Ready? || pc.Pulling?
    || (pc.Writing? && !(pc.body.Terminal? && pc.reply.Accepted?))
    || (pc.Ending? && !pc.reply.Accepted?)
    || pc == Erroring(Waiting)
  }

  /** The step moves the task itself. */
  predicate Acts(step: Step, t: nat) {
    match step
    case TaskStart(u) => u == t
    case TaskPull(u, _) => u == t
    case TaskStreamEnd(u) => u == t
    case TaskStreamError(u) => u == t
    case WriteCommit(u, _) => u == t
    case WriteResume(u) => u == t
    case SwallowCancel(u) => u == t
    case DeliverCancel(u) => u == t
    case CleanPop(u) => u == t
    case CleanAudit(u, _) => u == t
    case CleanTerminal(u) => u == t
    case ReleaseLease(u) => u == t
    case TaskLeave(u) => u == t
    case _ => false
  }

  /** The token whose lease a step may give up. */
  predicate MayGiveUp(s: State, step: Step, t: nat) {
    match step
    case WriteCommit(u, _) => u == t
    case CleanTerminal(u) => u == t
    case ReleaseLease(u) => u == t
    case OrphanCommit(o, _) => o.token == t
    case CancelPersist(c) => c in s.calls && s.calls[c].token == t
    case StartCleanup => s.starter.Begun? && s.starter.token == t
    case _ => false
  }

  /** The lease is held by this process under this token. */
  predicate Mine(s: State, t: nat) { Live(s.j, t) && s.j.lease.value.owner == s.me }

  predicate TakesOver(step: Step) { step.ForeignStep? && step.f.FRecover? && step.f.process.OwnerGone? }

  lemma ForeignLeaves(s: State, f: Foreign, t: nat)
    requires Enabled(s, ForeignStep(f)) && Mine(s, t)
    ensures var s2 := ApplyForeign(s, f); Live(s2.j, t) || (TakesOver(ForeignStep(f)) && t in s2.stolen)
  {
  }

  /** A lease of this process survives every step but its own holder's and a recovery. */
  lemma LeaseSurvives(s: State, step: Step, t: nat)
    requires Enabled(s, step) && Mine(s, t)
    ensures var s2 := Apply(s, step); Live(s2.j, t) || MayGiveUp(s, step, t) || (TakesOver(step) && t in s2.stolen)
  {
    if step.ForeignStep? { ForeignLeaves(s, step.f, t); }
  }

  lemma LiveIsMine(s: State, t: nat)
    requires Inv(s) && Owns(s, t) && Live(s.j, t)
    ensures Mine(s, t)
  {
  }

  /** What every step leaves alone: it loses no record, revives no token, touches no task but its actor's; only an
      installing step adds a task, only a delivered cancellation leaves a write behind, and calls are on the active task. */
  ghost predicate Frame(s: State, s2: State, step: Step) {
    && s.stolen <= s2.stolen && s.j.nextToken <= s2.j.nextToken
    && (forall t: nat :: t < s.j.nextToken && Live(s2.j, t) ==> Live(s.j, t))
    && (forall o :: o in s2.orphans && o !in s.orphans ==> step.DeliverCancel? && step.t in s.tasks && o in LeftBehind(s.tasks[step.t], step.t))
    && (forall c :: c in s.calls ==> c in s2.calls && s2.calls[c].suspend == s.calls[c].suspend && s2.calls[c].token == s.calls[c].token)
    && (forall c :: c in s2.calls && c !in s.calls ==> s.active.Some? && s2.calls[c].token == s.active.value.token)
    && (s2.active.Some? ==> s2.active == s.active || Installs(s, step, s2.active.value.token))
    && (forall t :: t in s2.tasks && t !in s.tasks ==> Installs(s, step, t))
    && (forall t :: t in s.tasks ==> t in s2.tasks)
    && (forall t :: t in s.tasks && !Acts(step, t) && !Installs(s, step, t) ==> s2.tasks[t].pc == s.tasks[t].pc && s2.tasks[t].run == s.tasks[t].run)
    && (s2.starter.Begun? ==> Live(s2.j, s2.starter.token) || (s.starter.Begun? && s2.starter.token == s.starter.token && !step.StartCleanup?))
  }

  predicate Installs(s: State, step: Step, t: nat) { step.StartInstall? && s.starter.Begun? && s.starter.token == t }

  lemma StartQuietFrame(s: State, step: Step)
    requires Enabled(s, step) && (step.StartBegin? || step.StartCancel? || step.StartFail?)
    ensures Frame(s, Apply(s, step), step)
  {
  }

  lemma CallMovesFrame(s: State, step: Step)
    requires Enabled(s, step) && (step.CallObserve? || step.CancelCheck? || step.CallFinish?)
    ensures Frame(s, Apply(s, step), step)
  {
  }

  lemma PullFrame(s: State, step: Step)
    requires Enabled(s, step) && (step.TaskStart? || step.TaskPull? || step.TaskStreamEnd? || step.TaskStreamError?)
    ensures Frame(s, Apply(s, step), step)
  {
  }

  lemma ResumeFrame(s: State, step: Step)
    requires Enabled(s, step) && (step.WriteResume? || step.SwallowCancel?)
    ensures Frame(s, Apply(s, step), step)
  {
  }

  lemma StartCommitFrame(s: State)
    requires Enabled(s, StartCommit)
    ensures Frame(s, Apply(s, StartCommit), StartCommit)
  {
  }

  lemma StartInstallFrame(s: State)
    requires Enabled(s, StartInstall)
    ensures Frame(s, Apply(s, StartInstall), StartInstall)
  {
  }

  lemma StartCleanupFrame(s: State)
    requires Enabled(s, StartCleanup)
    ensures Frame(s, Apply(s, StartCleanup), StartCleanup)
  {
  }

  lemma WriteCommitFrame(s: State, t: nat, wf: bool)
    requires Enabled(s, WriteCommit(t, wf))
    ensures Frame(s, Apply(s, WriteCommit(t, wf)), WriteCommit(t, wf))
  {
  }

  lemma DeliverCancelFrame(s: State, t: nat)
    requires Enabled(s, DeliverCancel(t))
    ensures Frame(s, Apply(s, DeliverCancel(t)), DeliverCancel(t))
  {
  }

  lemma CleanPopFrame(s: State, t: nat)
    requires Enabled(s, CleanPop(t))
    ensures Frame(s, Apply(s, CleanPop(t)), CleanPop(t))
  {
  }

  lemma CleanAuditFrame(s: State, t: nat, wf: bool)
    requires Enabled(s, CleanAudit(t, wf))
    ensures Frame(s, Apply(s, CleanAudit(t, wf)), CleanAudit(t, wf))
  {
  }

  lemma CleanTerminalFrame(s: State, t: nat)
    requires Enabled(s, CleanTerminal(t))
    ensures Frame(s, Apply(s, CleanTerminal(t)), CleanTerminal(t))
  {
  }

  lemma ReleaseLeaseFrame(s: State, t: nat)
    requires Enabled(s, ReleaseLease(t))
    ensures Frame(s, Apply(s, ReleaseLease(t)), ReleaseLease(t))
  {
  }

  lemma TaskLeaveFrame(s: State, t: nat)
    requires Enabled(s, TaskLeave(t))
    ensures Frame(s, Apply(s, TaskLeave(t)), TaskLeave(t))
  {
  }

  lemma OrphanCommitFrame(s: State, o: Orphan, wf: bool)
    requires Enabled(s, OrphanCommit(o, wf))
    ensures Frame(s, Apply(s, OrphanCommit(o, wf)), OrphanCommit(o, wf))
  {
  }

  lemma CancelBeginFrame(s: State, c: nat, run: RunId, auditEvents: seq<int>)
    requires Enabled(s, CancelBegin(c, run, auditEvents))
    ensures Frame(s, Apply(s, CancelBegin(c, run, auditEvents)), CancelBegin(c, run, auditEvents))
  {
  }

  lemma SuspendBeginFrame(s: State, c: nat, run: RunId)
    requires Enabled(s, SuspendBegin(c, run))
    ensures Frame(s, Apply(s, SuspendBegin(c, run)), SuspendBegin(c, run))
  {
  }

  lemma CancelPersistFrame(s: State, c: nat)
    requires Enabled(s, CancelPersist(c))
    ensures Frame(s, Apply(s, CancelPersist(c)), CancelPersist(c))
  {
  }

  lemma ForeignTokens(j: Journal, f: Foreign, t: nat)
    requires ForeignCommit(j, f).Committed?
    ensures var k := ForeignCommit(j, f).journal; j.nextToken <= k.nextToken && (t < j.nextToken && Live(k, t) ==> Live(j, t))
  {
  }

  lemma ForeignFrame(s: State, f: Foreign)
    requires Enabled(s, ForeignStep(f))
    ensures Frame(s, Apply(s, ForeignStep(f)), ForeignStep(f))
  {
    var s2 := ApplyForeign(s, f);
    forall t: nat ensures s.j.nextToken <= s2.j.nextToken && (t < s.j.nextToken && Live(s2.j, t) ==> Live(s.j, t)) {
      if ForeignCommit(s.j, f).Committed? { ForeignTokens(s.j, f, t); }
    }
    ForeignBeside(s, s2, f);
  }

  /** A foreign step changes nothing but the journal and the record of taken tokens. */
  lemma ForeignBeside(s: State, s2: State, f: Foreign)
    requires s2 == s.(j := s2.j, stolen := s2.stolen) && s.stolen <= s2.stolen && s.j.nextToken <= s2.j.nextToken
    requires forall t: nat :: t < s.j.nextToken && Live(s2.j, t) ==> Live(s.j, t)
    ensures Frame(s, s2, ForeignStep(f))
  {
  }

  lemma StartFrame(s: State, step: Step)
    requires Enabled(s, step) && (step.StartBegin? || step.StartCancel? || step.StartFail? || step.StartCommit? || step.StartInstall? || step.StartCleanup?)
    ensures Frame(s, Apply(s, step), step)
  {
    match step {
      case StartCommit => StartCommitFrame(s);
      case StartInstall => StartInstallFrame(s);
      case StartCleanup => StartCleanupFrame(s);
      case _ => StartQuietFrame(s, step);
    }
  }

  lemma CallsFrame(s: State, step: Step)
    requires Enabled(s, step)
    requires step.CancelBegin? || step.SuspendBegin? || step.CallObserve? || step.CancelCheck? || step.CancelPersist? || step.CallFinish?
    ensures Frame(s, Apply(s, step), step)
  {
    match step {
      case CancelBegin(c, run, auditEvents) => CancelBeginFrame(s, c, run, auditEvents);
      case SuspendBegin(c, run) => SuspendBeginFrame(s, c, run);
      case CancelPersist(c) => CancelPersistFrame(s, c);
      case _ => CallMovesFrame(s, step);
    }
  }

  lemma CleanupFrame(s: State, step: Step)
    requires Enabled(s, step)
    requires step.DeliverCancel? || step.CleanPop? || step.CleanAudit? || step.CleanTerminal? || step.ReleaseLease? || step.TaskLeave?
    ensures Frame(s, Apply(s, step), step)
  {
    match step {
      case DeliverCancel(t) => DeliverCancelFrame(s, t);
      case CleanPop(t) => CleanPopFrame(s, t);
      case CleanAudit(t, wf) => CleanAuditFrame(s, t, wf);
      case CleanTerminal(t) => CleanTerminalFrame(s, t);
      case ReleaseLease(t) => ReleaseLeaseFrame(s, t);
      case TaskLeave(t) => TaskLeaveFrame(s, t);
    }
  }

  lemma StepFrame(s: State, s2: State, step: Step)
    requires Enabled(s, step) && s2 == Apply(s, step)
    ensures Frame(s, s2, step)
  {
    if step.ForeignStep? {
      ForeignFrame(s, step.f);
    } else if step.StartBegin? || step.StartCancel? || step.StartFail? || step.StartCommit? || step.StartInstall? || step.StartCleanup? {
      StartFrame(s, step);
    } else if step.CancelBegin? || step.SuspendBegin? || step.CallObserve? || step.CancelCheck? || step.CancelPersist? || step.CallFinish? {
      CallsFrame(s, step);
    } else if step.DeliverCancel? || step.CleanPop? || step.CleanAudit? || step.CleanTerminal? || step.ReleaseLease? || step.TaskLeave? {
      CleanupFrame(s, step);
    } else if step.WriteCommit? {
      WriteCommitFrame(s, step.t, step.wellFormed);
    } else if step.OrphanCommit? {
      OrphanCommitFrame(s, step.o, step.wellFormed);
    } else if step.WriteResume? || step.SwallowCancel? {
      ResumeFrame(s, step);
    } else {
      PullFrame(s, step);
    }
  }

  /** A consumer's fate is sealed by the cancellation that ends it. */
  lemma FateIsSealed(s: State, step: Step, t: nat)
    requires Inv(s) && Enabled(s, step) && t in s.tasks && !FateOf(s.tasks[t].pc).Open?
    ensures var s2 := Apply(s, step); t in s2.tasks && s2.tasks[t].run == s.tasks[t].run && FateOf(s2.tasks[t].pc) == FateOf(s.tasks[t].pc)
  {
    if Acts(step, t) { OwnFate(s, step, t); } else { OthersLeave(s, step, t); }
  }

  /** A step of somebody else leaves the task where it is. */
  lemma OthersLeave(s: State, step: Step, t: nat)
    requires Enabled(s, step) && t in s.tasks && !Acts(step, t) && !Installs(s, step, t)
    ensures var s2 := Apply(s, step); t in s2.tasks && s2.tasks[t].run == s.tasks[t].run && s2.tasks[t].pc == s.tasks[t].pc
  {
    StepFrame(s, Apply(s, step), step);
  }

  lemma OwnFate(s: State, step: Step, t: nat)
    requires Enabled(s, step) && t in s.tasks && !FateOf(s.tasks[t].pc).Open? && Acts(step, t)
    ensures var s2 := Apply(s, step); t in s2.tasks && s2.tasks[t].run == s.tasks[t].run && FateOf(s2.tasks[t].pc) == FateOf(s.tasks[t].pc)
  {
    match step
    case DeliverCancel(u) =>
    case CleanPop(u) =>
    case CleanAudit(u, wf) =>
    case CleanTerminal(u) =>
    case ReleaseLease(u) =>
    case TaskLeave(u) =>
  }

  lemma {:induction false} FateStaysSealed(s: State, steps: seq<Step>, t: nat)
    requires Inv(s) && Schedulable(s, steps) && t in s.tasks && !FateOf(s.tasks[t].pc).Open?
    ensures var e := Run(s, steps); t in e.tasks && e.tasks[t].run == s.tasks[t].run && FateOf(e.tasks[t].pc) == FateOf(s.tasks[t].pc)
    decreases |steps|
  {
    if steps != [] {
      FateIsSealed(s, steps[0], t);
      StepKeepsInv(s, steps[0]);
      FateStaysSealed(Apply(s, steps[0]), steps[1..], t);
    }
  }

  // ---------------------------------------------------------------------------
  // Until it sees a terminal event stored, a consumer has its lease, unless recovery took it.

  ghost predicate HasLease(s: State, t: nat) { Live(s.j, t) || t in s.stolen }

  ghost predicate EarlyOk(s: State) {
    && (forall t :: t in s.tasks && Early(s.tasks[t].pc) ==> HasLease(s, t))
    && (s.starter.Begun? ==> HasLease(s, s.starter.token))
  }

  /** A write left behind belongs to a consumer that cleans up after itself, or is the error write of one cut off from it. */
  ghost predicate WriteOk(s: State, o: Orphan) {
    && o.token in s.tasks
    && var task := s.tasks[o.token];
    FateOf(task.pc).CleansUp? || (FateOf(task.pc).CutFromError? && o == ErrorWrite(task.run, o.token))
  }

  ghost predicate Ledger(s: State) { EarlyOk(s) && forall o :: o in s.orphans ==> WriteOk(s, o) }

  lemma WriteStaysOk(s: State, s2: State, step: Step, o: Orphan)
    requires Inv(s) && Ledger(s) && Enabled(s, step) && s2 == Apply(s, step) && o in s2.orphans
    ensures WriteOk(s2, o)
  {
    if o in s.orphans {
      assert WriteOk(s, o);
      FateIsSealed(s, step, o.token);
    } else {
      StepFrame(s, s2, step);
      WriteLeftBehind(s, step.t, o);
    }
  }

  lemma WriteLeftBehind(s: State, t: nat, o: Orphan)
    requires Enabled(s, DeliverCancel(t)) && o in LeftBehind(s.tasks[t], t)
    ensures WriteOk(Apply(s, DeliverCancel(t)), o)
  {
  }

  /** A step that is not the holder's keeps the lease or records who took it. */
  lemma HasLeaseStays(s: State, s2: State, step: Step, t: nat)
    requires Inv(s) && Enabled(s, step) && s2 == Apply(s, step) && Owns(s, t) && HasLease(s, t) && !MayGiveUp(s, step, t)
    ensures HasLease(s2, t)
  {
    StepFrame(s, s2, step);
    if Live(s.j, t) {
      LiveIsMine(s, t);
      LeaseSurvives(s, step, t);
    }
  }

  /** The consumer's own steps: it stays early only by a step that keeps the lease. */
  lemma OwnEarly(s: State, step: Step, t: nat)
    requires Enabled(s, step) && t in s.tasks && Acts(step, t) && t in Apply(s, step).tasks && Early(Apply(s, step).tasks[t].pc)
    ensures Early(s.tasks[t].pc) && (MayGiveUp(s, step, t) ==> step.WriteCommit?)
  {
    if step.DeliverCancel? { Delivered(s, t); }
    else if step.CleanPop? || step.CleanAudit? || step.CleanTerminal? || step.ReleaseLease? || step.TaskLeave? { OwnFate(s, step, t); }
  }

  lemma EarlyWrite(s: State, t: nat, wf: bool)
    requires Enabled(s, WriteCommit(t, wf)) && HasLease(s, t) && Early(Apply(s, WriteCommit(t, wf)).tasks[t].pc)
    ensures HasLease(Apply(s, WriteCommit(t, wf)), t)
  {
  }

  /** Nobody else can give up the lease of a consumer that is still early. */
  lemma EarlyIsSafe(s: State, step: Step, t: nat)
    requires Inv(s) && Ledger(s) && Enabled(s, step) && t in s.tasks && Early(s.tasks[t].pc) && !Acts(step, t)
    ensures !MayGiveUp(s, step, t)
  {
    if step.CancelPersist? { assert CallOk(s, step.c); }
    if step.OrphanCommit? { assert WriteOk(s, step.o); }
  }

  lemma EarlyActs(s: State, s2: State, step: Step, t: nat)
    requires Inv(s) && Ledger(s) && Enabled(s, step) && s2 == Apply(s, step) && t in s.tasks && t in s2.tasks && Early(s2.tasks[t].pc) && Acts(step, t)
    ensures HasLease(s2, t)
  {
    OwnEarly(s, step, t);
    if step.WriteCommit? { EarlyWrite(s, t, step.wellFormed); } else { HasLeaseStays(s, s2, step, t); }
  }

  lemma WasEarly(s: State, s2: State, step: Step, t: nat)
    requires Frame(s, s2, step) && t in s.tasks && !Acts(step, t) && !Installs(s, step, t) && Early(s2.tasks[t].pc)
    ensures Early(s.tasks[t].pc)
  {
  }

  lemma EarlyTask(s: State, s2: State, step: Step, t: nat)
    requires Inv(s) && Ledger(s) && Enabled(s, step) && s2 == Apply(s, step) && t in s.tasks && t in s2.tasks && Early(s2.tasks[t].pc)
    requires !Acts(step, t) ==> Early(s.tasks[t].pc)
    ensures HasLease(s2, t)
  {
    if Acts(step, t) {
      EarlyActs(s, s2, step, t);
    } else {
      EarlyIsSafe(s, step, t);
      HasLeaseStays(s, s2, step, t);
    }
  }

  lemma StarterHasLease(s: State, s2: State, step: Step)
    requires Inv(s) && Ledger(s) && Enabled(s, step) && s2 == Apply(s, step) && s2.starter.Begun?
    ensures HasLease(s2, s2.starter.token)
  {
    StepFrame(s, s2, step);
    if step.OrphanCommit? { assert OrphanOk(s, step.o); }
    if step.CancelPersist? { assert CallOk(s, step.c); }
    if !Live(s2.j, s2.starter.token) { HasLeaseStays(s, s2, step, s.starter.token); }
  }

  lemma NewTaskHasLease(s: State, s2: State, step: Step, t: nat)
    requires Inv(s) && Ledger(s) && Enabled(s, step) && s2 == Apply(s, step) && Frame(s, s2, step) && t !in s.tasks && t in s2.tasks
    ensures HasLease(s2, t)
  {
    InstallKeepsJournal(s);
  }

  lemma InstallKeepsJournal(s: State)
    requires Enabled(s, StartInstall)
    ensures Apply(s, StartInstall).j == s.j && Apply(s, StartInstall).stolen == s.stolen
  {
  }

  lemma StepKeepsLedger(s: State, step: Step)
    requires Inv(s) && Ledger(s) && Enabled(s, step)
    ensures Ledger(Apply(s, step))
  {
    var s2 := Apply(s, step);
    StepFrame(s, s2, step);
    forall t | t in s2.tasks && Early(s2.tasks[t].pc) ensures HasLease(s2, t) {
      if t in s.tasks { if !Acts(step, t) { WasEarly(s, s2, step, t); } EarlyTask(s, s2, step, t); } else { NewTaskHasLease(s, s2, step, t); }
    }
    forall o | o in s2.orphans ensures WriteOk(s2, o) { WriteStaysOk(s, s2, step, o); }
    if s2.starter.Begun? { StarterHasLease(s, s2, step); }
  }

  lemma {:induction false} RunKeepsLedger(s: State, steps: seq<Step>)
    requires Inv(s) && Ledger(s) && Schedulable(s, steps)
    ensures Inv(Run(s, steps)) && Ledger(Run(s, steps))
    decreases |steps|
  {
    if steps != [] {
      StepKeepsInv(s, steps[0]);
      StepKeepsLedger(s, steps[0]);
      RunKeepsLedger(Apply(s, steps[0]), steps[1..]);
    }
  }

  // ---------------------------------------------------------------------------
  // When a lease is lost.

  ghost predicate NoCancel(s: State, t: nat) { forall c :: c in s.calls ==> !IsCancelOf(s.calls[c], t) }

  /** Nothing that could still write under the token is under way. */
  ghost predicate Settled(s: State, t: nat) {
    && t in s.tasks && s.tasks[t].pc.Done?
    && (forall o :: o in s.orphans ==> o.token != t)
    && (forall c :: c in s.calls && IsCancelOf(s.calls[c], t) ==> Over(s.calls[c]))
  }

  predicate CutShort(pc: Pc) { FateOf(pc).CutOff? || FateOf(pc).CutFromError? }

  /** A consumer that was cut short gives up its lease only by the write it left behind, or through a cancel call. */
  lemma CutShortGivesUp(s: State, step: Step, t: nat)
    requires Inv(s) && Ledger(s) && Enabled(s, step) && t in s.tasks && CutShort(s.tasks[t].pc) && MayGiveUp(s, step, t)
    ensures || (step.OrphanCommit? && FateOf(s.tasks[t].pc).CutFromError? && step.o == ErrorWrite(s.tasks[t].run, t))
            || (step.CancelPersist? && step.c in s.calls && IsCancelOf(s.calls[step.c], t))
  {
    if step.OrphanCommit? { assert WriteOk(s, step.o); }
    if step.CancelPersist? { assert CallOk(s, step.c); }
  }

  lemma RefusedWriteKeeps(s: State, o: Orphan)
    requires o in s.orphans
    ensures Apply(s, OrphanCommit(o, false)).j == s.j
  {
  }

  lemma CutShortStaysLive(s: State, s2: State, step: Step, t: nat)
    requires Inv(s) && Ledger(s) && Enabled(s, step) && s2 == Apply(s, step) && t in s.tasks && CutShort(s.tasks[t].pc) && Live(s.j, t)
    requires t !in s2.stolen && NoCancel(s, t)
    requires FateOf(s.tasks[t].pc).CutFromError? ==> step != OrphanCommit(ErrorWrite(s.tasks[t].run, t), true)
    ensures Live(s2.j, t)
  {
    LiveIsMine(s, t);
    LeaseSurvives(s, step, t);
    if MayGiveUp(s, step, t) {
      CutShortGivesUp(s, step, t);
      RefusedWriteKeeps(s, step.o);
    }
  }

  lemma NoCancelBefore(s: State, s2: State, step: Step, t: nat)
    requires Frame(s, s2, step) && NoCancel(s2, t)
    ensures NoCancel(s, t)
  {
    forall c | c in s.calls ensures !IsCancelOf(s.calls[c], t) { assert c in s2.calls; }
  }

  lemma {:induction false} HistoryOnlyGrows(s: State, steps: seq<Step>, t: nat)
    requires Schedulable(s, steps)
    ensures s.stolen <= Run(s, steps).stolen
    ensures NoCancel(Run(s, steps), t) ==> NoCancel(s, t)
    decreases |steps|
  {
    if steps != [] {
      var s2 := Apply(s, steps[0]);
      StepFrame(s, s2, steps[0]);
      HistoryOnlyGrows(s2, steps[1..], t);
      if NoCancel(s2, t) { NoCancelBefore(s, s2, steps[0], t); }
    }
  }

  lemma {:induction false} LeaseStaysWithTheCut(s: State, steps: seq<Step>, t: nat)
    requires Inv(s) && Ledger(s) && Schedulable(s, steps) && t in s.tasks && CutShort(s.tasks[t].pc) && Live(s.j, t)
    requires t !in Run(s, steps).stolen && NoCancel(Run(s, steps), t)
    requires FateOf(s.tasks[t].pc).CutFromError? ==> OrphanCommit(ErrorWrite(s.tasks[t].run, t), true) !in steps
    ensures Live(Run(s, steps).j, t)
    decreases |steps|
  {
    if steps != [] {
      var s2 := Apply(s, steps[0]);
      HistoryOnlyGrows(s, steps, t);
      HistoryOnlyGrows(s2, steps[1..], t);
      CutShortStaysLive(s, s2, steps[0], t);
      FateIsSealed(s, steps[0], t);
      StepKeepsInv(s, steps[0]);
      StepKeepsLedger(s, steps[0]);
      LeaseStaysWithTheCut(s2, steps[1..], t);
    }
  }

  lemma {:induction false} DeadStaysDead(s: State, steps: seq<Step>, t: nat)
    requires Schedulable(s, steps) && t < s.j.nextToken && !Live(s.j, t)
    ensures !Live(Run(s, steps).j, t)
    decreases |steps|
  {
    if steps != [] {
      StepFrame(s, Apply(s, steps[0]), steps[0]);
      DeadStaysDead(Apply(s, steps[0]), steps[1..], t);
    }
  }

  /** Once the error write has been carried out the lease is gone, whether or not it was accepted. */
  lemma ErrorWriteFrees(s: State, t: nat)
    requires Inv(s) && t in s.tasks && Enabled(s, OrphanCommit(ErrorWrite(s.tasks[t].run, t), true))
    ensures !Live(Apply(s, OrphanCommit(ErrorWrite(s.tasks[t].run, t), true)).j, t)
  {
    assert TaskOk(s, t);
  }

  lemma {:induction false} ErrorWriteEndsTheLease(s: State, steps: seq<Step>, t: nat)
    requires Inv(s) && Schedulable(s, steps) && t in s.tasks && !FateOf(s.tasks[t].pc).Open?
    requires OrphanCommit(ErrorWrite(s.tasks[t].run, t), true) in steps
    ensures !Live(Run(s, steps).j, t)
    decreases |steps|
  {
    var s2 := Apply(s, steps[0]);
    FateIsSealed(s, steps[0], t);
    StepKeepsInv(s, steps[0]);
    if steps[0] == OrphanCommit(ErrorWrite(s.tasks[t].run, t), true) {
      ErrorWriteFrees(s, t);
      assert TaskOk(s2, t);
      DeadStaysDead(s2, steps[1..], t);
    } else {
      ErrorWriteEndsTheLease(s2, steps[1..], t);
    }
  }

  /** The fate a delivered cancellation gives to a consumer that has not reached its `finally` block. */
  lemma Delivered(s: State, t: nat)
    requires Enabled(s, DeliverCancel(t)) && !s.tasks[t].pc.Leaving?
    ensures var s2 := Apply(s, DeliverCancel(t));
      && t in s2.tasks && s2.tasks[t].run == s.tasks[t].run && s2.j == s.j && s2.stolen == s.stolen
      && FateOf(s2.tasks[t].pc) == (if s.tasks[t].pc.Ready? then CutOff else if s.tasks[t].pc == Erroring(Waiting) then CutFromError else CleansUp)
  {
  }

  /**
   Of a lease that recovery did not take, once nothing under its token is under way any more: it is still held
   exactly when no `cancel` call was made on the task and the cancellation found the consumer before its first step,
   or waiting to store its error terminal with that write never carried out.
   */
  lemma LeaseIsLostExactlyWhen(me: OwnerId, before: seq<Step>, after: seq<Step>, t: nat)
    requires Schedulable(Init(me), before)
    requires var s := Run(Init(me), before);
      && Enabled(s, DeliverCancel(t)) && !s.tasks[t].pc.Leaving?
      && Schedulable(Apply(s, DeliverCancel(t)), after)
      && Settled(Run(Apply(s, DeliverCancel(t)), after), t)
      && t !in Run(Apply(s, DeliverCancel(t)), after).stolen
    ensures var s := Run(Init(me), before);
      var e := Run(Apply(s, DeliverCancel(t)), after);
      var found := s.tasks[t].pc;
      Live(e.j, t) <==>
        && NoCancel(e, t)
        && (found.Ready? || (found == Erroring(Waiting) && OrphanCommit(ErrorWrite(s.tasks[t].run, t), true) !in after))
  {
    var s := Run(Init(me), before);
    RunKeepsLedger(Init(me), before);
    LostFrom(s, after, t);
  }

  lemma LostFrom(s: State, after: seq<Step>, t: nat)
    requires Inv(s) && Ledger(s) && Enabled(s, DeliverCancel(t)) && !s.tasks[t].pc.Leaving?
    requires Schedulable(Apply(s, DeliverCancel(t)), after)
    requires Settled(Run(Apply(s, DeliverCancel(t)), after), t) && t !in Run(Apply(s, DeliverCancel(t)), after).stolen
    ensures Live(Run(Apply(s, DeliverCancel(t)), after).j, t) <==>
      && NoCancel(Run(Apply(s, DeliverCancel(t)), after), t)
      && (s.tasks[t].pc.Ready? || (s.tasks[t].pc == Erroring(Waiting) && OrphanCommit(ErrorWrite(s.tasks[t].run, t), true) !in after))
  {
    var s2 := Apply(s, DeliverCancel(t));
    Delivered(s, t);
    HistoryOnlyGrows(s2, after, t);
    assert Early(s.tasks[t].pc) ==> HasLease(s, t);
    StepKeepsInv(s, DeliverCancel(t));
    StepKeepsLedger(s, DeliverCancel(t));
    SealedFate(s2, after, t);
  }

  /** A sealed fate decides about the lease. */
  lemma SealedFate(s: State, after: seq<Step>, t: nat)
    requires Inv(s) && Ledger(s) && Schedulable(s, after) && t in s.tasks && !FateOf(s.tasks[t].pc).Open?
    requires CutShort(s.tasks[t].pc) ==> Live(s.j, t)
    requires Settled(Run(s, after), t) && t !in Run(s, after).stolen
    ensures Live(Run(s, after).j, t) <==>
      && NoCancel(Run(s, after), t)
      && (FateOf(s.tasks[t].pc).CutOff? || (FateOf(s.tasks[t].pc).CutFromError? && OrphanCommit(ErrorWrite(s.tasks[t].run, t), true) !in after))
  {
    if Live(Run(s, after).j, t) {
      LiveIsUnclosed(s, after, t);
    } else if CutShort(s.tasks[t].pc) && NoCancel(Run(s, after), t)
           && (FateOf(s.tasks[t].pc).CutFromError? ==> OrphanCommit(ErrorWrite(s.tasks[t].run, t), true) !in after) {
      LeaseStaysWithTheCut(s, after, t);
    }
  }

  lemma LiveIsUnclosed(s: State, after: seq<Step>, t: nat)
    requires Inv(s) && Schedulable(s, after) && t in s.tasks && !FateOf(s.tasks[t].pc).Open?
    requires Settled(Run(s, after), t) && Live(Run(s, after).j, t)
    ensures NoCancel(Run(s, after), t) && CutShort(s.tasks[t].pc) && OrphanCommit(ErrorWrite(s.tasks[t].run, t), true) !in after
  {
    RunKeepsInv(s, after);
    FateStaysSealed(s, after, t);
    LiveHasNoCancel(Run(s, after), t);
    assert TaskOk(Run(s, after), t);
    if OrphanCommit(ErrorWrite(s.tasks[t].run, t), true) in after { ErrorWriteEndsTheLease(s, after, t); }
  }

  /** A finished cancel call has ended the lease. */
  lemma LiveHasNoCancel(s: State, t: nat)
    requires Inv(s) && Settled(s, t) && Live(s.j, t)
    ensures NoCancel(s, t)
  {
    forall c | c in s.calls ensures !IsCancelOf(s.calls[c], t) { assert CallOk(s, c); }
  }

  // ---------------------------------------------------------------------------
  // A lost lease stays lost.

  /** The lease is held for a task that is over, and nothing of this process is left that could give it up. */
  ghost predicate Lost(s: State, t: nat) {
    Settled(s, t) && Live(s.j, t) && (s.active.Some? ==> s.active.value.token != t)
  }

  lemma LostIsSafe(s: State, step: Step, t: nat)
    requires Inv(s) && Lost(s, t) && Enabled(s, step)
    ensures !Acts(step, t) && !MayGiveUp(s, step, t) && !Installs(s, step, t)
  {
    DoneDoesNotAct(s, step, t);
    if step.CancelPersist? { assert CallOk(s, step.c); }
  }

  lemma DoneDoesNotAct(s: State, step: Step, t: nat)
    requires Enabled(s, step) && t in s.tasks && s.tasks[t].pc.Done?
    ensures !Acts(step, t)
  {
  }

  lemma LostStep(s: State, s2: State, step: Step, t: nat)
    requires Frame(s, s2, step) && Lost(s, t) && NoCancel(s, t) && Live(s2.j, t) && !Acts(step, t) && !Installs(s, step, t)
    requires step.DeliverCancel? ==> step.t != t
    ensures Lost(s2, t)
  {
    forall c | c in s2.calls ensures !IsCancelOf(s2.calls[c], t) {}
  }

  predicate NobodyTakesOver(steps: seq<Step>) {
    forall i | 0 <= i < |steps| :: !TakesOver(steps[i])
  }

  /**
   As long as no recovery finds the owner process gone, a lost lease is held for ever: in every later schedule it is
   still there, and no run of the session can begin or be resumed, by anybody.
   */
  lemma {:induction false} LostLeaseIsForever(s: State, steps: seq<Step>, t: nat)
    requires Inv(s) && Lost(s, t) && Schedulable(s, steps) && NobodyTakesOver(steps)
    ensures var e := Run(s, steps);
      && Lost(e, t)
      && (forall run, owner :: BeginRun(e.j, run, owner).Rejected? && ResumeRun(e.j, run, owner).Rejected?)
    decreases |steps|
  {
    if steps != [] {
      var s2 := Apply(s, steps[0]);
      StepFrame(s, s2, steps[0]);
      LostIsSafe(s, steps[0], t);
      LiveIsMine(s, t);
      LeaseSurvives(s, steps[0], t);
      LiveHasNoCancel(s, t);
      LostStep(s, s2, steps[0], t);
      StepKeepsInv(s, steps[0]);
      LostLeaseIsForever(s2, steps[1..], t);
    }
  }

  // ---------------------------------------------------------------------------
  // Both ways, by example.

  /** The state of the schedules below: one run "r" under token 1, and at most one suspension. */
  function OneRun(me: OwnerId, pc: Pc, active: bool, suspending: bool, calls: map<nat, Call>, orphans: multiset<Orphan>): State {
    State(me, Journal([Entry("r", Started, 1)], Some(Lease("r", me, 1)), 2),
      if active then Some(Active("r", 1)) else None, if suspending then {"r"} else {}, map[], Idle,
      map[1 := Task("r", pc, false, None, 0)], calls, orphans, {}, {}, [])
  }

  /** A started run whose consumer has not been scheduled yet. */
  lemma StartedRun(me: OwnerId) returns (steps: seq<Step>)
    ensures Schedulable(Init(me), steps)
    ensures Run(Init(me), steps) == OneRun(me, Ready, true, false, map[], multiset{})
  {
    steps := [];
    Extend(Init(me), steps, StartBegin("r", true));
    steps := steps + [StartBegin("r", true)];
    Extend(Init(me), steps, StartCommit);
    steps := steps + [StartCommit];
    Extend(Init(me), steps, StartInstall);
    steps := steps + [StartInstall];
  }

  /** A suspension request on such a run, delivered at once. */
  lemma SuspendNow(me: OwnerId, steps: seq<Step>, pc: Pc) returns (more: seq<Step>)
    requires Schedulable(Init(me), steps) && Run(Init(me), steps) == OneRun(me, pc, true, false, map[], multiset{}) && !pc.Done?
    ensures Schedulable(Init(me), more)
    ensures Run(Init(me), more) == OneRun(me, PcAfterCancel(pc, true), true, true, map[0 := Call(true, 1, Awaiting)],
                                          LeftBehind(Task("r", pc, false, None, 0), 1))
  {
    more := steps;
    Extend(Init(me), more, SuspendBegin(0, "r"));
    more := more + [SuspendBegin(0, "r")];
    Extend(Init(me), more, DeliverCancel(1));
    more := more + [DeliverCancel(1)];
  }

  /** Suspending a run before its consumer's first step returns normally, clears the active
      run and keeps the lease: no run of the session can begin any more. */
  lemma SuspendBeforeFirstStepKeepsTheLease(me: OwnerId) returns (steps: seq<Step>)
    ensures Schedulable(Init(me), steps)
    ensures var s := Run(Init(me), steps);
      && 0 in s.calls && s.calls[0] == Call(true, 1, Returned)
      && s.active == None && Holds(s.j, "r", me, 1) && s.stolen == {} && s.orphans == multiset{}
      && Lost(s, 1)
      && (forall run, owner :: BeginRun(s.j, run, owner).Rejected?)
  {
    steps := StartedRun(me);
    steps := SuspendNow(me, steps, Ready);
    Extend(Init(me), steps, CallObserve(0));
    steps := steps + [CallObserve(0)];
    Extend(Init(me), steps, CallFinish(0));
    steps := steps + [CallFinish(0)];
  }

  /** A run whose stream raised and whose consumer waits to store the error terminal. */
  lemma ErroredRun(me: OwnerId) returns (steps: seq<Step>)
    ensures Schedulable(Init(me), steps)
    ensures Run(Init(me), steps) == OneRun(me, Erroring(Waiting), true, false, map[], multiset{})
  {
    steps := StartedRun(me);
    Extend(Init(me), steps, TaskStart(1));
    steps := steps + [TaskStart(1)];
    Extend(Init(me), steps, TaskStreamError(1));
    steps := steps + [TaskStreamError(1)];
  }

  /** So does a suspension that lands while the consumer waits its turn to store its error terminal: the write never
      starts, nothing is left under way, and no run of the session can begin any more. */
  lemma SuspendDuringErrorWriteKeepsTheLease(me: OwnerId) returns (steps: seq<Step>)
    ensures Schedulable(Init(me), steps)
    ensures var s := Run(Init(me), steps);
      && 0 in s.calls && s.calls[0] == Call(true, 1, Returned)
      && s.active == None && Holds(s.j, "r", me, 1) && s.stolen == {} && s.orphans == multiset{}
      && Lost(s, 1)
      && (forall run, owner :: BeginRun(s.j, run, owner).Rejected?)
  {
    steps := ErroredRun(me);
    steps := SuspendNow(me, steps, Erroring(Waiting));
    var write := OrphanCommit(ErrorWrite("r", 1), false);
    Extend(Init(me), steps, write);
    steps := steps + [write];
    assert Run(Init(me), steps).orphans == multiset{};
    Extend(Init(me), steps, TaskLeave(1));
    steps := steps + [TaskLeave(1)];
    Extend(Init(me), steps, CallObserve(0));
    steps := steps + [CallObserve(0)];
    Extend(Init(me), steps, CallFinish(0));
    steps := steps + [CallFinish(0)];
  }

  /** If the same write had already reached the journal's thread, it still closes the run and frees the lease. */
  lemma ErrorWriteMayStillClose(me: OwnerId) returns (steps: seq<Step>)
    ensures Schedulable(Init(me), steps)
    ensures var s := Run(Init(me), steps);
      && 0 in s.calls && s.calls[0] == Call(true, 1, Awaiting) && s.stolen == {}
      && s.j.lease == None && HasTerminal(s.j.log, "r")
  {
    steps := ErroredRun(me);
    steps := SuspendNow(me, steps, Erroring(Waiting));
    var write := OrphanCommit(ErrorWrite("r", 1), true);
    Extend(Init(me), steps, write);
    steps := steps + [write];
    var log := Run(Init(me), steps).j.log;
    assert log[1].run == "r" && log[1].body.Terminal?;
  }
}
