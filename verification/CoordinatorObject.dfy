/**
 The coordinator object itself: its fields, and the code its methods run.  The code of `cancel` and
 `suspend_for_restart` between two suspension points is proved to be one step of the state machine each; a start, a
 consumer and a cleanup that nobody interrupts are proved to be a schedule of that machine, from their first step to
 their last.  Interruptions, the release of a suspended run's lease and foreign processes are steps of the machine only.
 */
module CoordinatorObject {
  import opened Journal
  import opened Coordinator
  import opened Options

  class RunCoordinator {
    const me: OwnerId
    var journal: Journal
    var activeRun: Option<RunId>
    var activeTask: Option<nat>
    var activeToken: Option<nat>
    var suspendOnCancel: set<RunId>
    var cancelAudits: map<RunId, seq<int>>
    var tasks: map<nat, Task>
    /** What is not a field of the object: calls in progress, orphaned writes, history. */
    ghost var around: State

    /** The three fields for the active run are set and cleared together; a task is known by its token. */
    ghost predicate Valid()
      reads this
    {
      && activeTask == activeToken
      && (activeRun.Some? <==> activeToken.Some?)
      && around.me == me
    }

    ghost function Abs(): State
      reads this
      requires Valid()
    {
      around.(j := journal,
              active := if activeRun.Some? then Some(Active(activeRun.value, activeToken.value)) else None,
              suspending := suspendOnCancel, audits := cancelAudits, tasks := tasks)
    }

    constructor (me: OwnerId)
      ensures Valid() && Abs() == Init(me)
    {
      this.me := me;
      journal, activeRun, activeTask, activeToken := EMPTY, None, None, None;
      suspendOnCancel, cancelAudits, tasks := {}, map[], map[];
      around := Init(me);
    }

    /** The end of both start paths: the lease's token goes to a new consumer task. */
    method Install(run: RunId, token: nat)
      requires Valid() && Enabled(Abs(), StartInstall) && around.starter.run == run && around.starter.token == token
      modifies this
      ensures Valid() && Abs() == Apply(old(Abs()), StartInstall)
    {
      activeRun, activeToken := Some(run), Some(token);
      tasks := tasks[token := Task(run, Ready, false, None, 0)];
      activeTask := Some(token);
      around := around.(starter := Idle);
    }

    method CancelTask(t: nat)
      requires Valid()
      modifies this`tasks
      ensures Valid() && Abs() == RequestCancel(old(Abs()), t)
    {
      if t in tasks && !tasks[t].pc.Done? {
        tasks := tasks[t := tasks[t].(cancelRequested := true)];
      }
    }

    /** `cancel` up to its first await: false, and nothing changed, unless this run is the active one. */
    method BeginCancel(ghost c: nat, run: RunId, auditEvents: seq<int>) returns (found: bool)
      requires Valid() && c !in around.calls && around.starter.Idle?
      modifies this
      ensures Valid() && found == Enabled(old(Abs()), CancelBegin(c, run, auditEvents))
      ensures Abs() == if found then Apply(old(Abs()), CancelBegin(c, run, auditEvents)) else old(Abs())
    {
      if activeRun != Some(run) || activeTask.None? {
        return false;
      }
      var t := activeTask.value;
      if run !in cancelAudits || (cancelAudits[run] == [] && auditEvents != []) {
        cancelAudits := cancelAudits[run := auditEvents];
      }
      around := around.(calls := around.calls[c := Call(false, t, Awaiting)], offers := around.offers + [Offered(run, auditEvents)]);
      CancelTask(t);
      found := true;
    }

    method BeginSuspend(ghost c: nat, run: RunId) returns (found: bool)
      requires Valid() && c !in around.calls && around.starter.Idle?
      modifies this
      ensures Valid() && found == Enabled(old(Abs()), SuspendBegin(c, run))
      ensures Abs() == if found then Apply(old(Abs()), SuspendBegin(c, run)) else old(Abs())
    {
      if activeRun != Some(run) || activeTask.None? {
        return false;
      }
      var t := activeTask.value;
      suspendOnCancel := suspendOnCancel + {run};
      around := around.(calls := around.calls[c := Call(true, t, Awaiting)]);
      CancelTask(t);
      found := true;
    }

    /** The last block of `cancel` and `suspend_for_restart`: forget the task if it still is the active one. */
    method FinishCall(ghost c: nat, suspend: bool, run: RunId, t: nat)
      requires Valid() && Enabled(Abs(), CallFinish(c))
      requires around.calls[c].suspend == suspend && around.calls[c].token == t && tasks[t].run == run
      modifies this
      ensures Valid() && Abs() == Apply(old(Abs()), CallFinish(c))
    {
      if activeTask == Some(t) {
        activeRun, activeTask, activeToken := None, None, None;
      }
      if suspend {
        suspendOnCancel := suspendOnCancel - {run};
      }
      around := around.(calls := around.calls[c := around.calls[c].(pc := Returned)]);
    }

    /** The consumer's `finally` block. */
    method LeaveConsumer(t: nat)
      requires Valid() && Enabled(Abs(), TaskLeave(t))
      modifies this
      ensures Valid() && Abs() == Apply(old(Abs()), TaskLeave(t)) && journal == old(journal)
      ensures tasks == old(tasks)[t := old(tasks)[t].(pc := Done(old(tasks)[t].pc.how, old(tasks)[t].pc.error))]
    {
      var run := tasks[t].run;
      if activeRun == Some(run) {
        activeRun, activeTask, activeToken := None, None, None;
      }
      suspendOnCancel := suspendOnCancel - {run};
      cancelAudits := cancelAudits - {run};
      around := around.(offers := around.offers + [Dropped(run, t, false)]);
      tasks := tasks[t := tasks[t].(pc := Done(tasks[t].pc.how, tasks[t].pc.error))];
    }

    /** One fenced write: the journal's answer, and nothing else changed. */
    method PersistFenced(run: RunId, body: Body, token: nat, wellFormed: bool) returns (stored: bool)
      modifies this`journal
      ensures stored == FencedWrite(old(journal), run, me, token, body, wellFormed).Committed?
      ensures journal == if stored then FencedWrite(old(journal), run, me, token, body, wellFormed).journal else old(journal)
    {
      var outcome := if !wellFormed then Rejected
                     else if body.Terminal? then Terminate(journal, run, body.status, me, token)
                     else Append(journal, run, body, me, token);
      stored := outcome.Committed?;
      if stored {
        journal := outcome.journal;
      }
    }

    /** The object is where the schedule `steps` from `start` leads. */
    ghost predicate At(start: State, steps: seq<Step>)
      reads this
    {
      Valid() && Schedulable(start, steps) && Abs() == Run(start, steps)
    }

    /** Both start paths, uninterrupted: refused while a run is active, for a new run also while an approval is
        unresolved, or by the journal; else the run is installed. */
    method StartRun(run: RunId, isNew: bool, approvalPending: bool) returns (started: bool, ghost steps: seq<Step>)
      requires Valid() && around.starter.Idle?
      modifies this
      ensures At(old(Abs()), steps)
      ensures started <==> old(activeRun).None? && !(isNew && approvalPending) && (if isNew then BeginRun(old(journal), run, me) else ResumeRun(old(journal), run, me)).Committed?
      ensures started ==> steps == [StartBegin(run, isNew), StartCommit, StartInstall]
      ensures started ==> activeRun == Some(run) && activeToken == Some(old(journal).nextToken) && Holds(journal, run, me, old(journal).nextToken)
      ensures !started ==> Abs() == old(Abs())
    {
      steps := [];
      if activeRun.Some? || (isNew && approvalPending) {
        return false, [];
      }
      ghost var start := Abs();
      around := around.(starter := Beginning(run, isNew, false));
      Extend(start, [], StartBegin(run, isNew));
      steps := [StartBegin(run, isNew)];
      assert [] + [StartBegin(run, isNew)] == steps;
      var outcome := if isNew then BeginRun(journal, run, me) else ResumeRun(journal, run, me);
      Extend(start, steps, StartCommit);
      steps := steps + [StartCommit];
      started := outcome.Committed?;
      if !started {
        around := around.(starter := Idle);
        return;
      }
      var token := journal.nextToken;
      journal := outcome.journal;
      around := around.(starter := Begun(run, isNew, false, token));
      Extend(start, steps, StartInstall);
      Install(run, token);
      steps := steps + [StartInstall];
    }

    method CommitWrite(t: nat, wellFormed: bool, ghost start: State, ghost before: seq<Step>) returns (stored: bool)
      requires At(start, before) && t in tasks && Waits(tasks[t].pc) && (!tasks[t].pc.Writing? ==> wellFormed)
      modifies this`journal, this`tasks
      ensures At(start, before + [WriteCommit(t, wellFormed)])
      ensures var task := old(tasks)[t];
              var outcome := FencedWrite(old(journal), task.run, me, t, Pending(task.pc), wellFormed);
              && stored == outcome.Committed?
              && journal == (if stored then outcome.journal else old(journal))
              && tasks == old(tasks)[t := task.(pc := task.pc.(reply := if stored then Accepted else Refused))]
    {
      Extend(start, before, WriteCommit(t, wellFormed));
      stored := PersistFenced(tasks[t].run, Pending(tasks[t].pc), t, wellFormed);
      tasks := tasks[t := tasks[t].(pc := tasks[t].pc.(reply := if stored then Accepted else Refused))];
    }

    /** A consumer waits for its write and goes on with the answer. */
    method WriteAndResume(t: nat, wellFormed: bool, ghost start: State, ghost before: seq<Step>) returns (ghost steps: seq<Step>)
      requires At(start, before) && t in tasks && Waits(tasks[t].pc) && (!tasks[t].pc.Writing? ==> wellFormed) && !tasks[t].cancelRequested
      modifies this`journal, this`tasks
      ensures At(start, steps)
      ensures var task := old(tasks)[t];
              var outcome := FencedWrite(old(journal), task.run, me, t, Pending(task.pc), wellFormed);
              && journal == (if outcome.Committed? then outcome.journal else old(journal))
              && tasks == old(tasks)[t := task.(pc := Resumed(task.pc, outcome.Committed?))]
    {
      var pc := tasks[t].pc;
      var stored := CommitWrite(t, wellFormed, start, before);
      steps := before + [WriteCommit(t, wellFormed)];
      Extend(start, steps, WriteResume(t));
      tasks := tasks[t := tasks[t].(pc := Resumed(pc, stored))];
      steps := steps + [WriteResume(t)];
    }

    /** One event of the stream, from the pull to the answer of its write. */
    method ConsumeOne(t: nat, body: Body, wellFormed: bool, ghost start: State, ghost before: seq<Step>) returns (ghost steps: seq<Step>)
      requires At(start, before) && t in tasks && tasks[t].pc.Pulling? && !tasks[t].cancelRequested && (body.Stream? || body.Terminal?)
      modifies this`journal, this`tasks
      ensures At(start, steps)
      ensures var task := old(tasks)[t];
              var outcome := FencedWrite(old(journal), task.run, me, t, body, wellFormed);
              && journal == (if outcome.Committed? then outcome.journal else old(journal))
              && tasks == old(tasks)[t := task.(pc := Resumed(Writing(body, Waiting), outcome.Committed?))]
    {
      Extend(start, before, TaskPull(t, body));
      tasks := tasks[t := tasks[t].(pc := Writing(body, Waiting))];
      steps := WriteAndResume(t, wellFormed, start, before + [TaskPull(t, body)]);
    }

    /** The end of the stream: the completed terminal, or on to the error terminal. */
    method EndStream(t: nat, fails: bool, ghost start: State, ghost before: seq<Step>) returns (ghost steps: seq<Step>)
      requires At(start, before) && Has(Abs(), t) && tasks[t].pc.Pulling? && !tasks[t].cancelRequested
      modifies this`journal, this`tasks
      ensures At(start, steps)
      ensures var task := old(tasks)[t];
              var outcome := if fails then Rejected else Terminate(old(journal), task.run, Completed, me, t);
              && journal == (if outcome.Committed? then outcome.journal else old(journal))
              && tasks == old(tasks)[t := task.(pc := if outcome.Committed? then Leaving(Finished, false) else Erroring(Waiting))]
    {
      if fails {
        Extend(start, before, TaskStreamError(t));
        tasks := tasks[t := tasks[t].(pc := Erroring(Waiting))];
        steps := before + [TaskStreamError(t)];
      } else {
        Extend(start, before, TaskStreamEnd(t));
        tasks := tasks[t := tasks[t].(pc := Ending(Waiting))];
        steps := WriteAndResume(t, true, start, before + [TaskStreamEnd(t)]);
      }
    }

    /** Event i of the stream brings the consumer one event closer to what it is to store. */
    method ConsumeNth(t: nat, events: seq<Body>, wellFormed: seq<bool>, ghost fails: bool, i: nat, ghost was: Journal, ghost goal: seq<Entry>,
                      ghost start: State, ghost before: seq<Step>) returns (ghost steps: seq<Step>)
      requires i < |events| == |wellFormed| && At(start, before) && t in tasks && tasks[t].pc.Pulling? && !tasks[t].cancelRequested
      requires events[i].Stream? || events[i].Terminal?
      requires Progress(journal, was, tasks[t].run, me, t, Pulling, goal, Consumed(events[i..], wellFormed[i..], fails))
      modifies this`journal, this`tasks
      ensures At(start, steps) && t in tasks && tasks[t].run == old(tasks)[t].run && !tasks[t].cancelRequested
      ensures Mid(tasks[t].pc)
      ensures Progress(journal, was, tasks[t].run, me, t, tasks[t].pc, goal, Consumed(events[i + 1..], wellFormed[i + 1..], fails))
    {
      ghost var j, run := journal, tasks[t].run;
      ConsumedNext(events, wellFormed, fails, i);
      steps := ConsumeOne(t, events[i], wellFormed[i], start, before);
      ProgressNext(j, journal, was, run, me, t, events[i], wellFormed[i], Consumed(events[i..], wellFormed[i..], fails),
                   Consumed(events[i + 1..], wellFormed[i + 1..], fails), goal);
    }

    method ConsumeEvents(t: nat, events: seq<Body>, wellFormed: seq<bool>, ghost fails: bool, ghost was: Journal, ghost goal: seq<Entry>,
                         ghost start: State, ghost before: seq<Step>) returns (ghost steps: seq<Step>)
      requires |events| == |wellFormed| && At(start, before) && t in tasks && tasks[t].pc.Pulling? && !tasks[t].cancelRequested
      requires forall i | 0 <= i < |events| :: events[i].Stream? || events[i].Terminal?
      requires Progress(journal, was, tasks[t].run, me, t, Pulling, goal, Consumed(events, wellFormed, fails))
      modifies this`journal, this`tasks
      ensures At(start, steps) && t in tasks && tasks[t].run == old(tasks)[t].run && !tasks[t].cancelRequested
      ensures Mid(tasks[t].pc)
      ensures Progress(journal, was, tasks[t].run, me, t, tasks[t].pc, goal, Consumed([], [], fails))
    {
      steps := before;
      var i := 0;
      assert events[0..] == events && wellFormed[0..] == wellFormed;
      while i < |events| && tasks[t].pc.Pulling?
        invariant 0 <= i <= |events| && At(start, steps) && t in tasks && tasks[t].run == old(tasks)[t].run && !tasks[t].cancelRequested
        invariant Mid(tasks[t].pc)
        invariant Progress(journal, was, tasks[t].run, me, t, tasks[t].pc, goal, Consumed(events[i..], wellFormed[i..], fails))
        decreases |events| - i
      {
        steps := ConsumeNth(t, events, wellFormed, fails, i, was, goal, start, steps);
        i := i + 1;
      }
      if i == |events| {
        assert events[i..] == [] && wellFormed[i..] == [];
      }
    }

    /** What is left once the stream is over: the completed terminal, the error terminal, or nothing. */
    method CloseRun(t: nat, fails: bool, ghost was: Journal, ghost goal: seq<Entry>, ghost start: State, ghost before: seq<Step>) returns (ghost steps: seq<Step>)
      requires At(start, before) && t in tasks && Mid(tasks[t].pc) && !tasks[t].cancelRequested
      requires Progress(journal, was, tasks[t].run, me, t, tasks[t].pc, goal, Consumed([], [], fails))
      modifies this`journal, this`tasks
      ensures At(start, steps) && t in tasks && tasks[t].pc.Leaving? && !tasks[t].cancelRequested && tasks[t].run == old(tasks)[t].run
      ensures if Holds(was, tasks[t].run, me, t) then journal.lease == None && journal.log == goal else journal == was
    {
      steps := before;
      if tasks[t].pc.Pulling? {
        ghost var j := journal;
        steps := EndStream(t, fails, start, steps);
        ProgressEnd(j, journal, was, tasks[t].run, me, t, fails, goal);
      }
      if tasks[t].pc.Erroring? {
        steps := WriteAndResume(t, true, start, steps);
      }
    }

    method BeginConsumer(t: nat) returns (ghost steps: seq<Step>)
      requires Valid() && t in tasks && tasks[t].pc.Ready? && !tasks[t].cancelRequested
      modifies this`tasks
      ensures At(old(Abs()), steps) && tasks == old(tasks)[t := old(tasks)[t].(pc := Pulling)]
    {
      Extend(Abs(), [], TaskStart(t));
      tasks := tasks[t := tasks[t].(pc := Pulling)];
      steps := [] + [TaskStart(t)];
    }

    method EndConsumer(t: nat, ghost start: State, ghost before: seq<Step>)
      requires At(start, before) && t in tasks && tasks[t].pc.Leaving? && !tasks[t].cancelRequested && around.starter.Idle?
      modifies this
      ensures At(start, before + [TaskLeave(t)]) && t in tasks && tasks[t].pc.Done? && journal == old(journal)
    {
      Extend(start, before, TaskLeave(t));
      LeaveConsumer(t);
    }

    /**
     The consumer nobody interrupts, over a stream that yields these events and then ends or fails.  Under a live
     lease it stores the stream's events up to a terminal one, or up to the first refused one, and closes the run
     with exactly one terminal event; without the lease it stores nothing.
     */
    method Consume(t: nat, events: seq<Body>, wellFormed: seq<bool>, fails: bool) returns (ghost steps: seq<Step>)
      requires Valid() && around.starter.Idle? && t in tasks && tasks[t].pc.Ready? && !tasks[t].cancelRequested && |wellFormed| == |events|
      requires forall i | 0 <= i < |events| :: events[i].Stream? || events[i].Terminal?
      requires Holds(journal, tasks[t].run, me, t) ==> !HasTerminal(journal.log, tasks[t].run)
      modifies this
      ensures At(old(Abs()), steps) && t in tasks && tasks[t].pc.Done?
      ensures var run := old(tasks)[t].run;
              if Holds(old(journal), run, me, t)
              then journal.lease == None && journal.log == old(journal).log + Entries(run, t, Consumed(events, wellFormed, fails))
              else journal == old(journal)
    {
      ghost var start, was := Abs(), journal;
      ghost var goal := journal.log + Entries(tasks[t].run, t, Consumed(events, wellFormed, fails));
      steps := BeginConsumer(t);
      steps := ConsumeEvents(t, events, wellFormed, fails, was, goal, start, steps);
      steps := CloseRun(t, fails, was, goal, start, steps);
      EndConsumer(t, start, steps);
      steps := steps + [TaskLeave(t)];
    }

    /** The cleanup writes one audit event, or finds none left. */
    method AuditOne(t: nat, wellFormed: bool, ghost start: State, ghost before: seq<Step>) returns (ghost steps: seq<Step>)
      requires At(start, before) && t in tasks && tasks[t].pc.Auditing?
      modifies this`journal, this`tasks
      ensures At(start, steps) && steps == before + [CleanAudit(t, wellFormed)]
      ensures var task := old(tasks)[t];
              var rest := task.pc.rest;
              if rest != [] && wellFormed && Holds(old(journal), task.run, me, t)
              then journal == Insert(old(journal), Entry(task.run, Audit(rest[0]), t))
                   && tasks == old(tasks)[t := task.(pc := Auditing(rest[1..]), written := task.written + 1)]
              else journal == old(journal) && tasks == old(tasks)[t := task.(pc := Concluding(rest != []))]
    {
      Extend(start, before, CleanAudit(t, wellFormed));
      var task := tasks[t];
      var rest := task.pc.rest;
      var written := false;
      if rest != [] {
        written := PersistFenced(task.run, Audit(rest[0]), t, wellFormed);
      }
      tasks := tasks[t := if written then task.(pc := Auditing(rest[1..]), written := task.written + 1) else task.(pc := Concluding(rest != []))];
      steps := before + [CleanAudit(t, wellFormed)];
    }

    method WriteAudits(t: nat, taken: seq<int>, wellFormed: seq<bool>, ghost start: State, ghost before: seq<Step>) returns (ghost steps: seq<Step>)
      requires At(start, before) && IsCleanupSoFar(before, t) && t in tasks && tasks[t].pc == Auditing(taken) && |wellFormed| == |taken|
      modifies this`journal, this`tasks
      ensures At(start, steps) && IsCleanupSoFar(steps, t)
      ensures t in tasks && tasks[t].run == old(tasks)[t].run && tasks[t].pc.Concluding?
      ensures Holds(old(journal), tasks[t].run, me, t) ==> (tasks[t].pc.failed <==> AcceptedCount(wellFormed) < |taken|)
      ensures journal == if Holds(old(journal), tasks[t].run, me, t) then Audited(old(journal), tasks[t].run, t, taken[..AcceptedCount(wellFormed)])
                         else old(journal)
    {
      steps := before;
      ghost var was, run := journal, tasks[t].run;
      var i := 0;
      AuditsBegin(was, run, me, t, taken, wellFormed);
      while tasks[t].pc.Auditing?
        invariant 0 <= i <= |taken| && At(start, steps) && IsCleanupSoFar(steps, t)
        invariant t in tasks && tasks[t].run == run
        invariant AuditsWritten(journal, was, run, me, t, tasks[t].pc, taken, wellFormed, i)
        decreases tasks[t].pc.Auditing?, |taken| - i
      {
        var wf := i < |taken| && wellFormed[i];
        ghost var j := journal;
        steps := AuditOne(t, wf, start, steps);
        AuditNext(j, journal, was, run, me, t, tasks[t].pc, taken, wellFormed, i);
        if tasks[t].pc.Auditing? {
          i := i + 1;
        }
      }
    }

    /** The cleanup takes the audit events on record, which nobody can take again. */
    method TakeAudits(t: nat) returns (taken: seq<int>, ghost steps: seq<Step>)
      requires Valid() && t in tasks && tasks[t].pc.Cleaning?
      modifies this
      ensures At(old(Abs()), steps) && IsCleanupSoFar(steps, t)
      ensures taken == OnRecord(old(cancelAudits), old(tasks)[t].run) && cancelAudits == old(cancelAudits) - {old(tasks)[t].run}
      ensures journal == old(journal) && tasks == old(tasks)[t := old(tasks)[t].(pc := Auditing(taken), popped := Some(taken), written := 0)]
    {
      var run := tasks[t].run;
      ghost var start := Abs();
      taken := if run in cancelAudits then cancelAudits[run] else [];
      Extend(start, [], CleanPop(t));
      cancelAudits := cancelAudits - {run};
      tasks := tasks[t := tasks[t].(pc := Auditing(taken), popped := Some(taken), written := 0)];
      around := around.(offers := around.offers + [Dropped(run, t, true)]);
      steps := [] + [CleanPop(t)];
    }

    /** The cancelled terminal, whatever became of the audit events. */
    method CloseCancelled(t: nat, ghost was: Journal, ghost events: seq<int>, ghost start: State, ghost before: seq<Step>) returns (stored: bool)
      requires At(start, before) && t in tasks && tasks[t].pc.Concluding?
      requires Holds(was, tasks[t].run, me, t) ==> !HasTerminal(was.log, tasks[t].run)
      requires journal == if Holds(was, tasks[t].run, me, t) then Audited(was, tasks[t].run, t, events) else was
      modifies this`journal, this`tasks
      ensures At(start, before + [CleanTerminal(t)])
      ensures t in tasks && tasks[t].pc == if stored then Leaving(CancelledClean, old(tasks)[t].pc.failed) else Leaving(Failed, true)
      ensures stored == Holds(was, old(tasks)[t].run, me, t)
      ensures journal == if stored then ClosedAfter(Audited(was, old(tasks)[t].run, t, events), old(tasks)[t].run, t) else was
    {
      Extend(start, before, CleanTerminal(t));
      if Holds(was, tasks[t].run, me, t) {
        ClosesAudited(was, tasks[t].run, me, t, events);
      }
      stored := PersistFenced(tasks[t].run, Terminal(Cancelled), t, true);
      tasks := tasks[t := tasks[t].(pc := if stored then Leaving(CancelledClean, tasks[t].pc.failed) else Leaving(Failed, true))];
    }

    method WriteAndClose(t: nat, taken: seq<int>, wellFormed: seq<bool>, ghost start: State, ghost before: seq<Step>) returns (stored: bool, ghost steps: seq<Step>)
      requires At(start, before) && IsCleanupSoFar(before, t) && t in tasks && tasks[t].pc == Auditing(taken) && |wellFormed| == |taken|
      requires Holds(journal, tasks[t].run, me, t) ==> !HasTerminal(journal.log, tasks[t].run)
      modifies this`journal, this`tasks
      ensures At(start, steps) && IsCleanup(steps, t) && t in tasks
      ensures stored == Holds(old(journal), old(tasks)[t].run, me, t)
      ensures tasks[t].pc == if stored then Leaving(CancelledClean, AcceptedCount(wellFormed) < |wellFormed|) else Leaving(Failed, true)
      ensures var run := old(tasks)[t].run;
              journal == if stored then ClosedAfter(Audited(old(journal), run, t, taken[..AcceptedCount(wellFormed)]), run, t) else old(journal)
    {
      ghost var was := journal;
      steps := WriteAudits(t, taken, wellFormed, start, before);
      CleanupEnds(steps, t);
      stored := CloseCancelled(t, was, taken[..AcceptedCount(wellFormed)], start, steps);
      steps := steps + [CleanTerminal(t)];
    }

    /**
     The cleanup task left to itself: it takes the audit events once, writes them until one is refused, and then,
     in `finally`, the cancelled terminal.  `wellFormed` says which audit events the journal would accept; once one
     was refused the consumer leaves with its error, the terminal stored all the same.  If the lease was lost
     meanwhile nothing is stored and the consumer leaves with an error.
     */
    method PersistCancelledRun(t: nat, wellFormed: seq<bool>) returns (stored: bool, ghost steps: seq<Step>)
      requires Valid() && t in tasks && tasks[t].pc.Cleaning?
      requires Holds(journal, tasks[t].run, me, t) ==> !HasTerminal(journal.log, tasks[t].run)
      requires |wellFormed| == |OnRecord(cancelAudits, tasks[t].run)|
      modifies this
      ensures At(old(Abs()), steps) && IsCleanup(steps, t)
      ensures t in tasks && cancelAudits == old(cancelAudits) - {old(tasks)[t].run}
      ensures stored == Holds(old(journal), old(tasks)[t].run, me, t)
      ensures tasks[t].pc == if stored then Leaving(CancelledClean, AcceptedCount(wellFormed) < |wellFormed|) else Leaving(Failed, true)
      ensures var run := old(tasks)[t].run;
              journal == if stored then ClosedAfter(Audited(old(journal), run, t, OnRecord(old(cancelAudits), run)[..AcceptedCount(wellFormed)]), run, t)
                         else old(journal)
    {
      ghost var start := Abs();
      var taken;
      taken, steps := TakeAudits(t);
      stored, steps := WriteAndClose(t, taken, wellFormed, start, steps);
    }
  }

  predicate Waits(pc: Pc) { (pc.Writing? || pc.Ending? || pc.Erroring?) && pc.reply.Waiting? }

  /** Where a consumer goes once its write was answered. */
  function Resumed(pc: Pc, stored: bool): Pc
    requires pc.Writing? || pc.Ending? || pc.Erroring?
  {
    if pc.Erroring? then Leaving(Failed, true)
    else if !stored then Erroring(Waiting)
    else if pc.Ending? || pc.body.Terminal? then Leaving(Finished, false)
    else Pulling
  }

  // ---------------------------------------------------------------------------

  function Entries(run: RunId, token: nat, bodies: seq<Body>): seq<Entry> {
    seq(|bodies|, i requires 0 <= i < |bodies| => Entry(run, bodies[i], token))
  }

  function Audits(events: seq<int>): seq<Body> {
    seq(|events|, i requires 0 <= i < |events| => Audit(events[i]))
  }

  /** What an uninterrupted consumer stores under a live lease. */
  function Consumed(events: seq<Body>, wellFormed: seq<bool>, fails: bool): seq<Body>
    requires |events| == |wellFormed|
  {
    if events == [] then [Terminal(if fails then Error else Completed)]
    else if !wellFormed[0] then [Terminal(Error)]
    else if events[0].Terminal? then [events[0]]
    else [events[0]] + Consumed(events[1..], wellFormed[1..], fails)
  }

  /** It is a beginning of the stream, all of it accepted, and then exactly one terminal event: the stream's own, or
      completed if the stream is used up, or error. */
  lemma {:induction false} ConsumedIs(events: seq<Body>, wellFormed: seq<bool>, fails: bool)
    requires |events| == |wellFormed|
    ensures var stored := Consumed(events, wellFormed, fails);
      var n := |stored| - 1;
      && 0 <= n <= |events| && stored[..n] == events[..n] && stored[n].Terminal?
      && (forall i | 0 <= i < n :: wellFormed[i] && !events[i].Terminal?)
      && stored[n] == (if n == |events| then Terminal(if fails then Error else Completed)
                       else if wellFormed[n] && events[n].Terminal? then events[n] else Terminal(Error))
      && (n < |events| ==> !wellFormed[n] || events[n].Terminal?)
    decreases |events|
  {
    if events != [] && wellFormed[0] && !events[0].Terminal? {
      ConsumedIs(events[1..], wellFormed[1..], fails);
      var rest := Consumed(events[1..], wellFormed[1..], fails);
      var stored := [events[0]] + rest;
      assert forall i | 1 <= i < |stored| :: stored[i] == rest[i - 1];
      assert forall i | 1 <= i < |events| :: events[i] == events[1..][i - 1] && wellFormed[i] == wellFormed[1..][i - 1];
      assert stored[..|stored| - 1] == [events[0]] + rest[..|rest| - 1];
    }
  }

  /** Where an uninterrupted consumer is between two writes. */
  predicate Mid(pc: Pc) { pc.Pulling? || pc == Erroring(Waiting) || pc == Leaving(Finished, false) }

  /** How much of the log `goal` a consumer at `pc` has still to store, if it holds the lease. */
  ghost predicate Progress(j: Journal, was: Journal, run: RunId, me: OwnerId, t: nat, pc: Pc, goal: seq<Entry>, rest: seq<Body>) {
    if !Holds(was, run, me, t) then j == was && !pc.Leaving?
    else if pc.Leaving? then j.lease == None && j.log == goal
    else
      && Holds(j, run, me, t) && !HasTerminal(j.log, run)
      && j.log + Entries(run, t, if pc.Pulling? then rest else [Terminal(Error)]) == goal
  }

  lemma ConsumedNext(events: seq<Body>, wellFormed: seq<bool>, fails: bool, i: nat)
    requires |events| == |wellFormed| && i < |events|
    ensures Consumed(events[i..], wellFormed[i..], fails) == Then(events[i], wellFormed[i], Consumed(events[i + 1..], wellFormed[i + 1..], fails))
  {
    assert events[i..][1..] == events[i + 1..] && wellFormed[i..][1..] == wellFormed[i + 1..];
  }

  function Then(body: Body, wellFormed: bool, next: seq<Body>): seq<Body> {
    if !wellFormed then [Terminal(Error)] else if body.Terminal? then [body] else [body] + next
  }

  lemma ProgressNext(j: Journal, k: Journal, was: Journal, run: RunId, me: OwnerId, t: nat, body: Body, wellFormed: bool, here: seq<Body>, next: seq<Body>, goal: seq<Entry>)
    requires Progress(j, was, run, me, t, Pulling, goal, here) && here == Then(body, wellFormed, next)
    requires var outcome := FencedWrite(j, run, me, t, body, wellFormed); k == if outcome.Committed? then outcome.journal else j
    ensures Progress(k, was, run, me, t, Resumed(Writing(body, Waiting), FencedWrite(j, run, me, t, body, wellFormed).Committed?), goal, next)
  {
    if Holds(was, run, me, t) && wellFormed {
      var e := Entry(run, body, t);
      HasTerminalAfterInsert(j.log, e, run);
      EntriesCons(run, t, body, next);
      assert Entries(run, t, [body]) == [e];
      assert j.log + ([e] + Entries(run, t, next)) == j.log + [e] + Entries(run, t, next);
    }
  }

  lemma ProgressEnd(j: Journal, k: Journal, was: Journal, run: RunId, me: OwnerId, t: nat, fails: bool, goal: seq<Entry>)
    requires Progress(j, was, run, me, t, Pulling, goal, Consumed([], [], fails))
    requires var outcome := if fails then Rejected else Terminate(j, run, Completed, me, t); k == if outcome.Committed? then outcome.journal else j
    ensures Progress(k, was, run, me, t, if !fails && Terminate(j, run, Completed, me, t).Committed? then Leaving(Finished, false) else Erroring(Waiting), goal, [])
  {
    assert Entries(run, t, [Terminal(Completed)]) == [Entry(run, Terminal(Completed), t)];
  }

  lemma EntriesCons(run: RunId, t: nat, body: Body, rest: seq<Body>)
    ensures Entries(run, t, [body] + rest) == [Entry(run, body, t)] + Entries(run, t, rest)
  {
  }

  /** The journal with these audit events stored. */
  function Audited(j: Journal, run: RunId, t: nat, events: seq<int>): Journal {
    j.(log := j.log + Entries(run, t, Audits(events)))
  }

  /** The journal with the run's cancelled terminal stored and the lease freed. */
  function ClosedAfter(j: Journal, run: RunId, t: nat): Journal {
    j.(log := j.log + [Entry(run, Terminal(Cancelled), t)], lease := None)
  }

  lemma ClosesAudited(j: Journal, run: RunId, me: OwnerId, t: nat, events: seq<int>)
    requires Holds(j, run, me, t) && !HasTerminal(j.log, run)
    ensures Terminate(Audited(j, run, t, events), run, Cancelled, me, t) == Committed(ClosedAfter(Audited(j, run, t, events), run, t))
  {
    var k := Audited(j, run, t, events);
    assert forall i | 0 <= i < |j.log| :: k.log[i] == j.log[i];
  }

  /** How many events come before the first refused one. */
  function AcceptedCount(wellFormed: seq<bool>): (n: nat)
    ensures n <= |wellFormed|
    ensures forall i | 0 <= i < n :: wellFormed[i]
    ensures n < |wellFormed| ==> !wellFormed[n]
  {
    if wellFormed == [] || !wellFormed[0] then 0 else 1 + AcceptedCount(wellFormed[1..])
  }

  lemma AuditsSnoc(run: RunId, token: nat, events: seq<int>, i: nat)
    requires i < |events|
    ensures Entries(run, token, Audits(events[..i + 1])) == Entries(run, token, Audits(events[..i])) + [Entry(run, Audit(events[i]), token)]
  {}

  /** The cleanup has written the first i audit events, if it holds the lease; it stops at the first refused one. */
  ghost predicate AuditsWritten(j: Journal, was: Journal, run: RunId, me: OwnerId, t: nat, pc: Pc, taken: seq<int>, wellFormed: seq<bool>, i: int)
    requires |taken| == |wellFormed|
  {
    && 0 <= i <= AcceptedCount(wellFormed) && (pc == Auditing(taken[i..]) || pc.Concluding?)
    && if Holds(was, run, me, t) then j == Audited(was, run, t, taken[..i]) && (pc.Concluding? ==> i == AcceptedCount(wellFormed) && (pc.failed <==> i < |taken|)) else j == was
  }

  lemma AuditsBegin(was: Journal, run: RunId, me: OwnerId, t: nat, taken: seq<int>, wellFormed: seq<bool>)
    requires |taken| == |wellFormed|
    ensures AuditsWritten(was, was, run, me, t, Auditing(taken), taken, wellFormed, 0)
  {
    assert taken[0..] == taken && Entries(run, t, Audits(taken[..0])) == [];
    assert was.log + [] == was.log;
  }

  lemma AuditNext(j: Journal, k: Journal, was: Journal, run: RunId, me: OwnerId, t: nat, pc: Pc, taken: seq<int>, wellFormed: seq<bool>, i: int)
    requires |taken| == |wellFormed| && 0 <= i <= |taken| && AuditsWritten(j, was, run, me, t, Auditing(taken[i..]), taken, wellFormed, i)
    requires if i < |taken| && wellFormed[i] && Holds(j, run, me, t)
             then k == Insert(j, Entry(run, Audit(taken[i..][0]), t)) && pc == Auditing(taken[i..][1..])
             else k == j && pc == Concluding(taken[i..] != [])
    ensures AuditsWritten(k, was, run, me, t, pc, taken, wellFormed, if pc.Auditing? then i + 1 else i)
  {
    if pc.Auditing? {
      assert taken[i..][1..] == taken[i + 1..];
      AuditsSnoc(run, t, taken, i);
    }
  }

  predicate IsCleanupSoFar(steps: seq<Step>, t: nat) {
    && steps != [] && steps[0] == CleanPop(t)
    && forall i | 1 <= i < |steps| :: steps[i].CleanAudit? && steps[i].t == t
  }

  /** The cleanup's own steps and nobody else's, from taking the audit events to the terminal event. */
  predicate IsCleanup(steps: seq<Step>, t: nat) {
    |steps| >= 2 && steps[|steps| - 1] == CleanTerminal(t) && IsCleanupSoFar(steps[..|steps| - 1], t)
  }

  lemma CleanupEnds(steps: seq<Step>, t: nat)
    requires IsCleanupSoFar(steps, t)
    ensures IsCleanup(steps + [CleanTerminal(t)], t)
  {
    assert (steps + [CleanTerminal(t)])[..|steps|] == steps;
  }
}
