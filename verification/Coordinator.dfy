/**
 Run ownership in one coordinator process: starting, consuming, cancelling and suspending
 runs, as a state machine whose steps are the code between two suspension points.  The
 steps of any number of `cancel` and `suspend_for_restart` calls, of writes that outlive
 a cancelled waiter, and of other processes using the same journal interleave freely.
 */
module Coordinator {
  import opened Journal
  import opened Options

  /** Outcome of a journal write the consumer waits for. */
  datatype Reply = Waiting | Accepted | Refused

  /** How a consumer left its stream loop.
      `Unstarted`: cancelled before its first step, so no line of it ran.
      `Abandoned`: cancelled while its error terminal was still being written.
      `error` says whether awaiting the task raises something other than a cancellation. */
  datatype Leave = Finished | CancelledClean | Suspended | Failed | Abandoned | Unstarted

  datatype Pc =
    | Ready                                // created, not yet scheduled
    | Pulling                              // awaiting the next stream event
    | Writing(body: Body, reply: Reply)    // shielded persist of a stream event
    | Ending(reply: Reply)                 // persisting the completed terminal
    | Erroring(reply: Reply)               // persisting the error terminal
    | Cleaning                             // cancelled: cleanup task created, audit tuple not yet taken
    | Auditing(rest: seq<int>)             // cancelled: writing audit events
    | Concluding(failed: bool)             // cancelled: writing the cancelled terminal, an audit event refused or not
    | Releasing                            // suspended: releasing the lease
    | Leaving(how: Leave, error: bool)     // finally block
    | Done(how: Leave, error: bool)

  /** A consumer task; its fencing token is its key.  `popped` and `written` record the
      audit tuple its cleanup took and how many of its events were stored. */
  datatype Task = Task(run: RunId, pc: Pc, cancelRequested: bool, popped: Option<seq<int>>, written: nat)

  /** A caller offers audit events for a run; a consumer drops the record kept for its run, its cleanup having taken
      it or not. */
  datatype Offer = Offered(run: RunId, events: seq<int>) | Dropped(run: RunId, token: nat, taken: bool)

  datatype Starter =
    | Idle
    | Beginning(run: RunId, isNew: bool, cancelled: bool)
    | Begun(run: RunId, isNew: bool, cancelled: bool, token: nat)

  datatype CallPc = Awaiting | Checking | Persisting | Finishing | Returned | Raised

  /** A `cancel` (or, with `suspend`, a `suspend_for_restart`) call on the task with this token. */
  datatype Call = Call(suspend: bool, token: nat, pc: CallPc)

  /** A write whose waiter was cancelled; its thread may still commit it. */
  datatype Orphan = Orphan(run: RunId, body: Body, token: nat)

  datatype Active = Active(run: RunId, token: nat)

  /** `stolen`, `released` and `offers` are history: tokens taken away by recovery, tokens
      given back by a release, and the audit tuples callers passed and the records dropped. */
  datatype State = State(
    me: OwnerId,
    j: Journal,
    active: Option<Active>,
    suspending: set<RunId>,
    audits: map<RunId, seq<int>>,
    starter: Starter,
    tasks: map<nat, Task>,
    calls: map<nat, Call>,
    orphans: multiset<Orphan>,
    stolen: set<nat>,
    released: set<nat>,
    offers: seq<Offer>)

  /** What another process, or a caller outside the run protocol, does to the journal. */
  datatype Foreign =
    | FBegin(run: RunId, owner: OwnerId)
    | FResume(run: RunId, owner: OwnerId)
    | FAppend(run: RunId, n: int, owner: OwnerId, token: nat)
    | FTerminate(run: RunId, status: Status, owner: OwnerId, token: nat)
    | FRelease(run: RunId, owner: OwnerId, token: nat)
    | FUnfencedAppend(run: RunId, n: int)
    | FUnfencedTerminate(run: RunId, status: Status)
    | FRecover(process: OwnerState, approvalPending: bool)

  datatype Step =
    | StartBegin(run: RunId, isNew: bool)
    | StartCancel
    | StartCommit
    | StartFail
    | StartInstall
    | StartCleanup
    | TaskStart(t: nat)
    | TaskPull(t: nat, body: Body)
    | TaskStreamEnd(t: nat)
    | TaskStreamError(t: nat)
    | WriteCommit(t: nat, wellFormed: bool)
    | WriteResume(t: nat)
    | SwallowCancel(t: nat)
    | DeliverCancel(t: nat)
    | CleanPop(t: nat)
    | CleanAudit(t: nat, wellFormed: bool)
    | CleanTerminal(t: nat)
    | ReleaseLease(t: nat)
    | TaskLeave(t: nat)
    | OrphanCommit(o: Orphan, wellFormed: bool)
    | CancelBegin(c: nat, run: RunId, auditEvents: seq<int>)
    | SuspendBegin(c: nat, run: RunId)
    | CallObserve(c: nat)
    | CancelCheck(c: nat)
    | CancelPersist(c: nat)
    | CallFinish(c: nat)
    | ForeignStep(f: Foreign)

  function Init(me: OwnerId): State {
    State(me, EMPTY, None, {}, map[], Idle, map[], map[], multiset{}, {}, {}, [])
  }

  predicate Has(s: State, t: nat) { t in s.tasks }

  /** The body of the terminal or event a waiting consumer is writing. */
  function Pending(pc: Pc): Body
    requires pc.Writing? || pc.Ending? || pc.Erroring?
  {
    match pc
    case Writing(b, _) => b
    case Ending(_) => Terminal(Completed)
    case Erroring(_) => Terminal(Error)
  }

  /** One fenced write; `wellFormed` is the journal's input validation. */
  function FencedWrite(j: Journal, run: RunId, me: OwnerId, token: nat, body: Body, wellFormed: bool): Commit {
    if !wellFormed then Rejected
    else if body.Terminal? then Terminate(j, run, body.status, me, token)
    else Append(j, run, body, me, token)
  }

  function Persist(s: State, run: RunId, body: Body, token: nat, wellFormed: bool): Commit {
    FencedWrite(s.j, run, s.me, token, body, wellFormed)
  }

  predicate Enabled(s: State, step: Step) {
    match step
    case StartBegin(_, _) => s.starter.Idle? && s.active.None?
    case StartCancel => !s.starter.Idle?
    case StartCommit => s.starter.Beginning?
    case StartFail => s.starter.Beginning?
    case StartInstall => s.starter.Begun? && !s.starter.cancelled
    case StartCleanup => s.starter.Begun? && s.starter.cancelled
    case TaskStart(t) => Has(s, t) && s.tasks[t].pc.Ready? && !s.tasks[t].cancelRequested
    case TaskPull(t, body) => Has(s, t) && s.tasks[t].pc.Pulling? && !s.tasks[t].cancelRequested && (body.Stream? || body.Terminal?)
    case TaskStreamEnd(t) => Has(s, t) && s.tasks[t].pc.Pulling? && !s.tasks[t].cancelRequested
    case TaskStreamError(t) => Has(s, t) && s.tasks[t].pc.Pulling?
    case WriteCommit(t, wf) =>
      && Has(s, t)
      && (var pc := s.tasks[t].pc; (pc.Writing? || pc.Ending? || pc.Erroring?) && pc.reply.Waiting? && (!pc.Writing? ==> wf))
    case WriteResume(t) =>
      && Has(s, t) && !s.tasks[t].cancelRequested
      && (var pc := s.tasks[t].pc; (pc.Writing? || pc.Ending? || pc.Erroring?) && !pc.reply.Waiting?)
    case SwallowCancel(t) => Has(s, t) && s.tasks[t].pc.Pulling? && s.tasks[t].cancelRequested
    case DeliverCancel(t) => Has(s, t) && s.tasks[t].cancelRequested && !s.tasks[t].pc.Done?
    case CleanPop(t) => Has(s, t) && s.tasks[t].pc.Cleaning?
    case CleanAudit(t, _) => Has(s, t) && s.tasks[t].pc.Auditing?
    case CleanTerminal(t) => Has(s, t) && s.tasks[t].pc.Concluding?
    case ReleaseLease(t) => Has(s, t) && s.tasks[t].pc.Releasing?
    case TaskLeave(t) => Has(s, t) && s.tasks[t].pc.Leaving? && !s.tasks[t].cancelRequested && s.starter.Idle?
    case OrphanCommit(o, _) => o in s.orphans
    case CancelBegin(c, run, _) => c !in s.calls && s.starter.Idle? && s.active.Some? && s.active.value.run == run
    case SuspendBegin(c, run) => c !in s.calls && s.starter.Idle? && s.active.Some? && s.active.value.run == run
    case CallObserve(c) => c in s.calls && s.calls[c].pc.Awaiting? && Has(s, s.calls[c].token) && s.tasks[s.calls[c].token].pc.Done?
    case CancelCheck(c) => c in s.calls && s.calls[c].pc.Checking? && Has(s, s.calls[c].token)
    case CancelPersist(c) => c in s.calls && s.calls[c].pc.Persisting? && Has(s, s.calls[c].token)
    case CallFinish(c) => c in s.calls && s.calls[c].pc.Finishing? && s.starter.Idle? && Has(s, s.calls[c].token)
    case ForeignStep(f) =>
      match f
      case FBegin(_, o) => o != s.me
      case FResume(_, o) => o != s.me
      case FAppend(_, _, o, _) => o != s.me
      case FTerminate(_, _, o, _) => o != s.me
      case FRelease(_, o, _) => o != s.me
      case FUnfencedAppend(run, _) => !HasTerminal(s.j.log, run)
      case FUnfencedTerminate(_, _) => true
      case FRecover(_, _) => true
  }

  function SetPc(s: State, t: nat, pc: Pc): State
    requires Has(s, t)
  {
    s.(tasks := s.tasks[t := s.tasks[t].(pc := pc)])
  }

  function SetCall(s: State, c: nat, pc: CallPc): State
    requires c in s.calls
  {
    s.(calls := s.calls[c := s.calls[c].(pc := pc)])
  }

  /** Where `asyncio.CancelledError`, raised at the consumer's suspension point, takes it.
      The cleanup task and the lease release are awaited through further cancellation. */
  function PcAfterCancel(pc: Pc, suspending: bool): Pc {
    match pc
    case Ready => Done(Unstarted, false)
    case Pulling => if suspending then Releasing else Cleaning
    case Writing(_, _) => if suspending then Releasing else Cleaning
    case Ending(_) => if suspending then Releasing else Cleaning
    case Erroring(reply) => Leaving(if reply.Waiting? then Abandoned else Failed, false)
    case Leaving(how, _) => Done(how, false)
    case _ => pc
  }

  /** A write whose waiter is cancelled stays in flight until it has been answered. */
  function LeftBehind(task: Task, t: nat): multiset<Orphan> {
    var pc := task.pc;
    if (pc.Writing? || pc.Ending? || pc.Erroring?) && pc.reply.Waiting? then multiset{Orphan(task.run, Pending(pc), t)}
    else multiset{}
  }

  function ThrowCancelled(s: State, t: nat): State
    requires Has(s, t)
  {
    var task := s.tasks[t];
    s.(tasks := s.tasks[t := task.(pc := PcAfterCancel(task.pc, task.run in s.suspending), cancelRequested := false)],
       orphans := s.orphans + LeftBehind(task, t))
  }

  function Apply(s: State, step: Step): State
    requires Enabled(s, step)
  {
    match step
    case StartBegin(run, isNew) => s.(starter := Beginning(run, isNew, false))
    case StartCancel => s.(starter := s.starter.(cancelled := true))
    case StartFail => s.(starter := Idle)
    case StartCommit =>
      var b := s.starter;
      (match if b.isNew then BeginRun(s.j, b.run, s.me) else ResumeRun(s.j, b.run, s.me)
       case Rejected => s.(starter := Idle)
       case Committed(k) => s.(j := k, starter := Begun(b.run, b.isNew, b.cancelled, s.j.nextToken)))
    case StartInstall => InstallRun(s, s.starter.run, s.starter.token)
    case StartCleanup =>
      var b := s.starter;
      if b.isNew then
        (match Terminate(s.j, b.run, Cancelled, s.me, b.token)
         case Rejected => s.(starter := Idle)
         case Committed(k) => s.(starter := Idle, j := k))
      else
        (match Release(s.j, b.run, s.me, b.token)
         case Rejected => s.(starter := Idle)
         case Committed(k) => s.(starter := Idle, j := k, released := s.released + {b.token}))
    case TaskStart(t) => SetPc(s, t, Pulling)
    case TaskPull(t, body) => SetPc(s, t, Writing(body, Waiting))
    case TaskStreamEnd(t) => SetPc(s, t, Ending(Waiting))
    case TaskStreamError(t) => SetPc(s, t, Erroring(Waiting))
    case WriteCommit(t, wf) =>
      var pc := s.tasks[t].pc;
      (match Persist(s, s.tasks[t].run, Pending(pc), t, wf)
       case Rejected => SetPc(s, t, pc.(reply := Refused))
       case Committed(k) => SetPc(s.(j := k), t, pc.(reply := Accepted)))
    case WriteResume(t) =>
      var pc := s.tasks[t].pc;
      SetPc(s, t,
        if pc.Erroring? then Leaving(Failed, true)
        else if pc.reply.Refused? then Erroring(Waiting)
        else if pc.Ending? || pc.body.Terminal? then Leaving(Finished, false)
        else Pulling)
    case SwallowCancel(t) => s.(tasks := s.tasks[t := s.tasks[t].(cancelRequested := false)])
    case DeliverCancel(t) => ThrowCancelled(s, t)
    case CleanPop(t) =>
      var task := s.tasks[t];
      var taken := if task.run in s.audits then s.audits[task.run] else [];
      s.(audits := s.audits - {task.run},
         offers := s.offers + [Dropped(task.run, t, true)],
         tasks := s.tasks[t := task.(pc := Auditing(taken), popped := Some(taken), written := 0)])
    case CleanAudit(t, wf) =>
      var task := s.tasks[t];
      var rest := task.pc.rest;
      if rest == [] then SetPc(s, t, Concluding(false))
      else
        (match Persist(s, task.run, Audit(rest[0]), t, wf)
         case Rejected => SetPc(s, t, Concluding(true))
         case Committed(k) =>
           s.(j := k, tasks := s.tasks[t := task.(pc := Auditing(rest[1..]), written := task.written + 1)]))
    case CleanTerminal(t) =>
      (match Terminate(s.j, s.tasks[t].run, Cancelled, s.me, t)
       case Rejected => SetPc(s, t, Leaving(Failed, true))
       case Committed(k) => SetPc(s.(j := k), t, Leaving(CancelledClean, s.tasks[t].pc.failed)))
    case ReleaseLease(t) =>
      (match Release(s.j, s.tasks[t].run, s.me, t)
       case Rejected => SetPc(s, t, Leaving(Failed, true))
       case Committed(k) => SetPc(s.(j := k, released := s.released + {t}), t, Leaving(Suspended, false)))
    case TaskLeave(t) =>
      var run := s.tasks[t].run;
      SetPc(s.(active := if s.active.Some? && s.active.value.run == run then None else s.active,
               suspending := s.suspending - {run},
               audits := s.audits - {run},
               offers := s.offers + [Dropped(run, t, false)]),
            t, Done(s.tasks[t].pc.how, s.tasks[t].pc.error))
    case OrphanCommit(o, wf) => CommitOrphan(s, o, wf)
    case CancelBegin(c, run, auditEvents) =>
      var t := s.active.value.token;
      RequestCancel(RecordAudits(s.(calls := s.calls[c := Call(false, t, Awaiting)]), run, auditEvents), t)
    case SuspendBegin(c, run) =>
      var t := s.active.value.token;
      RequestCancel(s.(calls := s.calls[c := Call(true, t, Awaiting)], suspending := s.suspending + {run}), t)
    case CallObserve(c) =>
      var call := s.calls[c];
      SetCall(s, c, if s.tasks[call.token].pc.error then Raised else if call.suspend then Finishing else Checking)
    case CancelCheck(c) =>
      SetCall(s, c, if RunLeased(s.j, s.tasks[s.calls[c].token].run) then Persisting else Finishing)
    case CancelPersist(c) => PersistFromCall(s, c, s.calls[c].token)
    case CallFinish(c) => FinishCall(s, c, s.calls[c])
    case ForeignStep(f) => ApplyForeign(s, f)
  }

  function InstallRun(s: State, run: RunId, token: nat): State {
    s.(starter := Idle, active := Some(Active(run, token)), tasks := s.tasks[token := Task(run, Ready, false, None, 0)])
  }

  function CommitOrphan(s: State, o: Orphan, wellFormed: bool): State {
    var rest := s.orphans - multiset{o};
    match Persist(s, o.run, o.body, o.token, wellFormed)
    case Rejected => s.(orphans := rest)
    case Committed(k) => s.(orphans := rest, j := k)
  }

  /** The audit tuple kept for a run, if any. */
  function OnRecord(audits: map<RunId, seq<int>>, run: RunId): seq<int> { if run in audits then audits[run] else [] }

  /** The first non-empty audit tuple offered for a run is kept. */
  function RecordAudits(s: State, run: RunId, auditEvents: seq<int>): State {
    s.(offers := s.offers + [Offered(run, auditEvents)],
       audits := if run !in s.audits || (s.audits[run] == [] && auditEvents != []) then s.audits[run := auditEvents] else s.audits)
  }

  function PersistFromCall(s: State, c: nat, t: nat): State
    requires c in s.calls && Has(s, t)
  {
    match Terminate(s.j, s.tasks[t].run, Cancelled, s.me, t)
    case Rejected => SetCall(s, c, Raised)
    case Committed(k) => SetCall(s.(j := k), c, Finishing)
  }

  function FinishCall(s: State, c: nat, call: Call): State
    requires c in s.calls && Has(s, call.token)
  {
    SetCall(s.(active := if s.active.Some? && s.active.value.token == call.token then None else s.active,
               suspending := if call.suspend then s.suspending - {s.tasks[call.token].run} else s.suspending),
            c, Returned)
  }

  /** `task.cancel()`: a finished task ignores it. */
  function RequestCancel(s: State, t: nat): State {
    if t in s.tasks && !s.tasks[t].pc.Done? then s.(tasks := s.tasks[t := s.tasks[t].(cancelRequested := true)]) else s
  }

  function ForeignCommit(j: Journal, f: Foreign): Commit {
    match f
    case FBegin(run, o) => BeginRun(j, run, o)
    case FResume(run, o) => ResumeRun(j, run, o)
    case FAppend(run, n, o, t) => Append(j, run, Stream(n), o, t)
    case FTerminate(run, st, o, t) => Terminate(j, run, st, o, t)
    case FRelease(run, o, t) => Release(j, run, o, t)
    case FUnfencedAppend(run, n) => AppendUnfenced(j, run, Stream(n))
    case FUnfencedTerminate(run, st) => TerminateUnfenced(j, run, st)
    case FRecover(o, a) => RecoverLease(j, o, a)
  }

  function ApplyForeign(s: State, f: Foreign): State {
    match ForeignCommit(s.j, f)
    case Rejected => s
    case Committed(k) =>
      s.(j := k, stolen := if f.FRecover? && s.j.lease.Some? && k.lease.None? then s.stolen + {s.j.lease.value.token} else s.stolen)
  }

  /** A schedule: every prefix state enables the next step. */
  predicate Schedulable(s: State, steps: seq<Step>)
    decreases |steps|
  {
    steps == [] || (Enabled(s, steps[0]) && Schedulable(Apply(s, steps[0]), steps[1..]))
  }

  function Run(s: State, steps: seq<Step>): State
    requires Schedulable(s, steps)
    decreases |steps|
  {
    if steps == [] then s else Run(Apply(s, steps[0]), steps[1..])
  }

  /** A schedule can be extended by any step its last state enables. */
  lemma {:induction false} Extend(s: State, steps: seq<Step>, step: Step)
    requires Schedulable(s, steps) && Enabled(Run(s, steps), step)
    ensures Schedulable(s, steps + [step]) && Run(s, steps + [step]) == Apply(Run(s, steps), step)
    decreases |steps|
  {
    var all := steps + [step];
    if steps != [] {
      Extend(Apply(s, steps[0]), steps[1..], step);
      assert all[1..] == steps[1..] + [step];
    }
  }
}
