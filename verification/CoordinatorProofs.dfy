/** What every interleaving of the coordinator's steps keeps. */
module CoordinatorProofs {
  import opened Journal
  import opened Coordinator
  import opened Options

  /** The audit events stored under a token, in log order. */
  function AuditsBy(log: seq<Entry>, t: nat): seq<int> {
    if log == [] then []
    else
      var e := log[|log| - 1];
      AuditsBy(log[..|log| - 1], t) + (if e.token == t && e.body.Audit? then [e.body.n] else [])
  }

  /** The audit tuple on record for a run: the first non-empty one offered since the record was last dropped. */
  function Kept(offers: seq<Offer>, run: RunId): seq<int> {
    if offers == [] then []
    else
      var before, last := Kept(offers[..|offers| - 1], run), offers[|offers| - 1];
      if Drops(last, run) then []
      else if last.Offered? && last.run == run && before == [] then last.events
      else before
  }

  predicate Drops(e: Offer, run: RunId) { e.Dropped? && e.run == run }

  /** Entry n of the history is this task's cleanup taking these events. */
  ghost predicate TookAt(offers: seq<Offer>, n: int, run: RunId, t: nat, events: seq<int>) {
    0 <= n < |offers| && offers[n] == Dropped(run, t, true) && events == Kept(offers[..n], run)
  }

  ghost predicate Took(offers: seq<Offer>, run: RunId, t: nat, events: seq<int>) { exists n :: TookAt(offers, n, run, t, events) }

  ghost predicate BookOk(s: State) { forall r :: OnRecord(s.audits, r) == Kept(s.offers, r) }

  ghost predicate NoTerminalBy(log: seq<Entry>, t: nat) {
    forall i :: 0 <= i < |log| && log[i].token == t ==> !log[i].body.Terminal?
  }

  /** A token this coordinator was issued for `run`: it is live, or its run is closed, or it
      was taken by recovery, or it was given back. */
  ghost predicate TokenOk(s: State, t: nat, run: RunId) {
    && 1 <= t < s.j.nextToken
    && (Live(s.j, t) ==> s.j.lease.value.run == run && s.j.lease.value.owner == s.me)
    && (Live(s.j, t) || HasTerminal(s.j.log, run) || t in s.stolen || t in s.released)
    && (t in s.released ==> !Live(s.j, t) && NoTerminalBy(s.j.log, t))
  }

  predicate Left(pc: Pc) { pc.Leaving? || pc.Done? }

  /** The consumer has seen its own terminal stored. */
  predicate SawTerminal(pc: Pc) {
    || (pc.Writing? && pc.body.Terminal? && pc.reply.Accepted?)
    || (pc.Ending? && pc.reply.Accepted?)
    || (Left(pc) && (pc.how.Finished? || pc.how.CancelledClean?))
  }

  ghost predicate PcOk(s: State, t: nat, pc: Pc) {
    && (pc.Writing? && pc.body.Terminal? && pc.reply.Accepted? ==> !Live(s.j, t))
    && (pc.Writing? ==> !pc.body.Audit?)
    && (pc.Ending? && pc.reply.Accepted? ==> !Live(s.j, t))
    && (pc.Erroring? && !pc.reply.Waiting? ==> !Live(s.j, t))
    && (t in s.released <==> Left(pc) && pc.how.Suspended?)
    && (Left(pc) ==>
          && (Live(s.j, t) ==> pc.how.Abandoned? || pc.how.Unstarted?)
          && (pc.error ==> pc.how.Failed? || pc.how.CancelledClean?))
    && (pc.Leaving? ==> !pc.how.Unstarted?)
  }

  ghost predicate AuditOk(s: State, t: nat, task: Task) {
    && (task.popped.Some? ==>
          && task.written <= |task.popped.value|
          && Took(s.offers, task.run, t, task.popped.value)
          && AuditsBy(s.j.log, t) == task.popped.value[..task.written])
    && (task.popped.None? ==> AuditsBy(s.j.log, t) == [])
    && (task.pc.Auditing? ==> task.popped.Some? && task.pc.rest == task.popped.value[task.written..])
    && (task.popped.Some? ==> task.pc.Auditing? || task.pc.Concluding? || Left(task.pc))
  }

  ghost predicate TaskOk(s: State, t: nat) requires t in s.tasks {
    var task := s.tasks[t];
    && TokenOk(s, t, task.run)
    && PcOk(s, t, task.pc)
    && AuditOk(s, t, task)
    && (SawTerminal(task.pc) ==> HasTerminal(s.j.log, task.run))
    && (!task.pc.Done? ==> s.active == Some(Active(task.run, t)))
  }

  ghost predicate CallOk(s: State, c: nat) requires c in s.calls {
    var call := s.calls[c];
    && call.token in s.tasks
    && (!call.pc.Awaiting? ==> s.tasks[call.token].pc.Done?)
    && (call.suspend ==> !call.pc.Checking? && !call.pc.Persisting?)
    && (!call.suspend && (call.pc.Finishing? || call.pc.Returned?) ==> !Live(s.j, call.token))
    && (call.pc.Raised? ==> !Live(s.j, call.token))
    && (call.pc.Returned? ==> s.active != Some(Active(s.tasks[call.token].run, call.token)))
  }

  ghost predicate OrphanOk(s: State, o: Orphan) {
    && o.token in s.tasks
    && s.tasks[o.token].run == o.run
    && !o.body.Audit?
  }

  predicate Owns(s: State, t: nat) {
    t in s.tasks || (s.starter.Begun? && s.starter.token == t)
  }

  ghost predicate Inv(s: State) {
    && Valid(s.j)
    && (s.j.lease.Some? ==> (s.j.lease.value.owner == s.me <==> Owns(s, s.j.lease.value.token)))
    && (forall t :: t in s.tasks ==> TaskOk(s, t))
    && (forall c :: c in s.calls ==> CallOk(s, c))
    && (forall o :: o in s.orphans ==> OrphanOk(s, o))
    && (s.active.Some? ==>
          && s.starter.Idle?
          && s.active.value.token in s.tasks
          && s.tasks[s.active.value.token].run == s.active.value.run)
    && (s.starter.Begun? ==>
          && s.starter.token !in s.tasks
          && s.starter.token !in s.released
          && AuditsBy(s.j.log, s.starter.token) == []
          && TokenOk(s, s.starter.token, s.starter.run))
    && BookOk(s)
    && (forall t :: t in s.stolen || t in s.released ==> t < s.j.nextToken)
  }

  /** The new journal of a step, and what the step records beside it. */
  ghost predicate Moves(s: State, s2: State) {
    && s2.me == s.me
    && Valid(s2.j)
    && Evolves(s.j, s2.j)
    && s.offers <= s2.offers
    && s.stolen <= s2.stolen
    && s.released <= s2.released
  }

  lemma AuditsFrame(j: Journal, k: Journal, t: nat)
    requires Evolves(j, k)
    requires |k.log| == |j.log| + 1 ==> k.log[|j.log|].token != t || !k.log[|j.log|].body.Audit?
    ensures AuditsBy(k.log, t) == AuditsBy(j.log, t)
  {
    if |k.log| == |j.log| + 1 {
      assert k.log[..|k.log| - 1] == j.log;
    } else {
      assert k.log == j.log;
    }
  }

  /** What a cleanup took stays what was on record then. */
  lemma AuditOkGrows(s: State, s2: State, t: nat, task: Task)
    requires AuditOk(s, t, task) && s.offers <= s2.offers && AuditsBy(s2.j.log, t) == AuditsBy(s.j.log, t)
    ensures AuditOk(s2, t, task)
  {
    if task.popped.Some? {
      var n :| TookAt(s.offers, n, task.run, t, task.popped.value);
      assert s2.offers[..n] == s.offers[..n];
      assert TookAt(s2.offers, n, task.run, t, task.popped.value);
    }
  }

  lemma KeptSnoc(offers: seq<Offer>, e: Offer, run: RunId)
    ensures Kept(offers + [e], run) ==
      if Drops(e, run) then [] else if e.Offered? && e.run == run && Kept(offers, run) == [] then e.events else Kept(offers, run)
  {
    assert (offers + [e])[..|offers + [e]| - 1] == offers;
  }

  lemma DropKeepsBook(s: State, s2: State, run: RunId, t: nat, taken: bool)
    requires BookOk(s) && s2.audits == s.audits - {run} && s2.offers == s.offers + [Dropped(run, t, taken)]
    ensures BookOk(s2)
  {
    forall r ensures OnRecord(s2.audits, r) == Kept(s2.offers, r) {
      KeptSnoc(s.offers, Dropped(run, t, taken), r);
      assert OnRecord(s.audits, r) == Kept(s.offers, r);
    }
  }

  lemma OfferKeepsBook(s: State, s2: State, run: RunId, events: seq<int>)
    requires BookOk(s) && s2.audits == RecordAudits(s, run, events).audits && s2.offers == s.offers + [Offered(run, events)]
    ensures BookOk(s2)
  {
    forall r ensures OnRecord(s2.audits, r) == Kept(s2.offers, r) {
      KeptSnoc(s.offers, Offered(run, events), r);
      assert OnRecord(s.audits, r) == Kept(s.offers, r);
    }
  }

  lemma {:induction false} AuditsNone(log: seq<Entry>, t: nat)
    requires forall i :: 0 <= i < |log| ==> log[i].token < t
    ensures AuditsBy(log, t) == []
  {
    if log != [] { AuditsNone(log[..|log| - 1], t); }
  }

  /** A token keeps its account across a step that, if it kills the token, says why. */
  lemma TokenFrame(s: State, s2: State, t: nat, run: RunId)
    requires Moves(s, s2) && TokenOk(s, t, run)
    requires t in s2.released ==> t in s.released || (Live(s.j, t) && !Live(s2.j, t) && s2.j.log == s.j.log && !HasTerminal(s.j.log, run))
    requires forall i :: 0 <= i < |s.j.log| && s.j.log[i].token == t && Live(s.j, t) ==> s.j.log[i].run == run
    requires Live(s.j, t) ==> Live(s2.j, t) || HasTerminal(s2.j.log, run) || t in s2.stolen || t in s2.released
    ensures TokenOk(s2, t, run)
  {
    EvolvesTrans(s.j, s2.j, t, run);
    if t in s2.released {
      forall i | 0 <= i < |s2.j.log| && s2.j.log[i].token == t ensures !s2.j.log[i].body.Terminal? {
        if i < |s.j.log| { assert s2.j.log[i] == s.j.log[i]; }
      }
    }
  }

  /** A task the step does not touch stays in order. */
  lemma TaskFrame(s: State, s2: State, t: nat)
    requires Valid(s.j) && Moves(s, s2)
    requires t in s.tasks && TaskOk(s, t)
    requires t in s2.tasks && s2.tasks[t] == s.tasks[t]
    requires t in s2.released ==> t in s.released
    requires Live(s.j, t) ==> Live(s2.j, t) || HasTerminal(s2.j.log, s.tasks[t].run) || t in s2.stolen
    requires |s2.j.log| == |s.j.log| + 1 ==> s2.j.log[|s.j.log|].token != t || !s2.j.log[|s.j.log|].body.Audit?
    requires s2.active == s.active || s.tasks[t].pc.Done?
    ensures TaskOk(s2, t)
  {
    TokenFrame(s, s2, t, s.tasks[t].run);
    AuditsFrame(s.j, s2.j, t);
    AuditOkGrows(s, s2, t, s.tasks[t]);
    EvolvesTrans(s.j, s2.j, t, s.tasks[t].run);
  }

  lemma CallFrame(s: State, s2: State, c: nat)
    requires Inv(s) && Moves(s, s2)
    requires c in s.calls && c in s2.calls && s2.calls[c] == s.calls[c]
    requires forall t :: t in s.tasks ==> t in s2.tasks && s2.tasks[t].run == s.tasks[t].run && (s.tasks[t].pc.Done? ==> s2.tasks[t].pc.Done?)
    requires s2.active == s.active || s2.active == None || (s.active == None && s2.active.value.token !in s.tasks)
    ensures CallOk(s2, c)
  {
    var t := s.calls[c].token;
    assert CallOk(s, c) && TaskOk(s, t);
    EvolvesTrans(s.j, s2.j, t, s.tasks[t].run);
  }

  /** A step around one task: its own, one of a call waiting for it, or a write under its token. */
  ghost predicate Around(s: State, s2: State, t: nat) {
    && Moves(s, s2)
    && t in s.tasks && s2.tasks.Keys == s.tasks.Keys
    && s2.tasks[t].run == s.tasks[t].run && (s.tasks[t].pc.Done? ==> s2.tasks[t].pc.Done?)
    && (forall u :: u in s.tasks && u != t ==> s2.tasks[u] == s.tasks[u])
    && s2.starter == s.starter
    && (s2.active == s.active || (s2.active == None && s.active.Some? && s.active.value.token == t))
    && (s2.j.lease == s.j.lease || (s2.j.lease == None && Live(s.j, t)))
    && (|s2.j.log| == |s.j.log| + 1 ==> s2.j.log[|s.j.log|].token == t)
    && s2.stolen == s.stolen && s2.released <= s.released + {t}
  }

  lemma OtherTask(s: State, s2: State, t: nat, u: nat)
    requires Valid(s.j) && Around(s, s2, t) && u in s.tasks && TaskOk(s, u) && TaskOk(s, t) && u != t
    ensures TaskOk(s2, u)
  {
    TaskFrame(s, s2, u);
  }

  lemma StarterAround(s: State, s2: State, t: nat)
    requires Inv(s) && Around(s, s2, t) && s.starter.Begun?
    ensures s.starter.token !in s2.released && AuditsBy(s2.j.log, s.starter.token) == [] && TokenOk(s2, s.starter.token, s.starter.run)
  {
    TokenFrame(s, s2, s.starter.token, s.starter.run);
    AuditsFrame(s.j, s2.j, s.starter.token);
  }

  lemma CallAround(s: State, s2: State, t: nat, c: nat)
    requires Inv(s) && Around(s, s2, t) && c in s.calls && c in s2.calls && s2.calls[c] == s.calls[c]
    ensures CallOk(s2, c)
  {
    CallFrame(s, s2, c);
  }

  lemma LeaseAround(s: State, s2: State, t: nat)
    requires Inv(s) && Around(s, s2, t)
    ensures s2.j.lease.Some? ==> (s2.j.lease.value.owner == s2.me <==> Owns(s2, s2.j.lease.value.token))
    ensures s2.active.Some? ==> s2.starter.Idle? && s2.active.value.token in s2.tasks && s2.tasks[s2.active.value.token].run == s2.active.value.run
    ensures forall u :: u in s2.stolen || u in s2.released ==> u < s2.j.nextToken
  {
    assert TaskOk(s, t);
  }

  /** If the task itself ends up in order, everything does. */
  lemma OneTask(s: State, s2: State, t: nat)
    requires Inv(s) && Around(s, s2, t) && TaskOk(s2, t)
    requires forall c :: c in s2.calls ==> (c in s.calls && s2.calls[c] == s.calls[c]) || CallOk(s2, c)
    requires forall o :: o in s2.orphans ==> o in s.orphans || OrphanOk(s2, o)
    requires BookOk(s2)
    ensures Inv(s2)
  {
    forall u | u in s2.tasks ensures TaskOk(s2, u) {
      if u != t { OtherTask(s, s2, t, u); }
    }
    forall c | c in s2.calls ensures CallOk(s2, c) {
      if c in s.calls && s2.calls[c] == s.calls[c] { CallAround(s, s2, t, c); }
    }
    forall o | o in s2.orphans ensures OrphanOk(s2, o) {
      if o in s.orphans { assert OrphanOk(s, o); }
    }
    LeaseAround(s, s2, t);
    if s.starter.Begun? { StarterAround(s, s2, t); }
  }

  /** One fenced write under token t by this coordinator. */
  lemma PersistMoves(s: State, run: RunId, body: Body, t: nat, wf: bool)
    requires Inv(s) && Persist(s, run, body, t, wf).Committed?
    ensures var k := Persist(s, run, body, t, wf).journal;
      && Valid(k) && Evolves(s.j, k) && Holds(s.j, run, s.me, t)
      && k.log == s.j.log + [Entry(run, body, t)]
      && k.lease == (if body.Terminal? then None else s.j.lease)
      && (body.Terminal? ==> HasTerminal(k.log, run))
  {
    if body.Terminal? { TerminateKeeps(s.j, run, body.status, s.me, t); } else { AppendKeeps(s.j, run, body, s.me, t); }
  }

  lemma PersistRefused(s: State, t: nat, body: Body)
    requires Inv(s) && t in s.tasks && Persist(s, s.tasks[t].run, body, t, true).Rejected?
    ensures !Live(s.j, t)
  {
    assert TaskOk(s, t);
  }

  /** A step that writes nothing to the journal and moves task t to `task`. */
  lemma Quiet(s: State, s2: State, t: nat, task: Task)
    requires Inv(s) && t in s.tasks && s2.tasks == s.tasks[t := task]
    requires s2.j == s.j && s2.me == s.me && s2.starter == s.starter && s2.calls == s.calls
    requires s.offers <= s2.offers && s2.stolen == s.stolen && s2.released == s.released
    requires forall o :: o in s2.orphans ==> o in s.orphans || (o.run == task.run && o.token == t && !o.body.Audit?)
    requires (s2.audits == s.audits && s2.offers == s.offers) || BookOk(s2)
    requires s2.active == s.active || (s2.active == None && s.active.Some? && s.active.value.token == t)
    requires s2.active == s.active || task.pc.Done?
    requires task.run == s.tasks[t].run && !s.tasks[t].pc.Done?
    requires PcOk(s, t, task.pc) && (SawTerminal(task.pc) ==> SawTerminal(s.tasks[t].pc))
    requires AuditOk(s2, t, s.tasks[t]) ==> AuditOk(s2, t, task)
    ensures Inv(s2)
  {
    assert TaskOk(s, t);
    assert Around(s, s2, t);
    AuditOkGrows(s, s2, t, s.tasks[t]);
    assert TaskOk(s2, t);
    OneTask(s, s2, t);
  }

  lemma TaskStartStep(s: State, t: nat)
    requires Inv(s) && Enabled(s, TaskStart(t))
    ensures Inv(Apply(s, TaskStart(t)))
  {
    assert TaskOk(s, t);
    Quiet(s, Apply(s, TaskStart(t)), t, s.tasks[t].(pc := Pulling));
  }

  lemma TaskPullStep(s: State, t: nat, body: Body)
    requires Inv(s) && Enabled(s, TaskPull(t, body))
    ensures Inv(Apply(s, TaskPull(t, body)))
  {
    assert TaskOk(s, t);
    Quiet(s, Apply(s, TaskPull(t, body)), t, s.tasks[t].(pc := Writing(body, Waiting)));
  }

  lemma TaskStreamErrorStep(s: State, t: nat)
    requires Inv(s) && Enabled(s, TaskStreamError(t))
    ensures Inv(Apply(s, TaskStreamError(t)))
  {
    assert TaskOk(s, t);
    Quiet(s, Apply(s, TaskStreamError(t)), t, s.tasks[t].(pc := Erroring(Waiting)));
  }

  lemma TaskStreamEndStep(s: State, t: nat)
    requires Inv(s) && Enabled(s, TaskStreamEnd(t))
    ensures Inv(Apply(s, TaskStreamEnd(t)))
  {
    assert TaskOk(s, t);
    Quiet(s, Apply(s, TaskStreamEnd(t)), t, s.tasks[t].(pc := Ending(Waiting)));
  }

  lemma WriteResumeStep(s: State, t: nat)
    requires Inv(s) && Enabled(s, WriteResume(t))
    ensures Inv(Apply(s, WriteResume(t)))
  {
    assert TaskOk(s, t);
    var s2 := Apply(s, WriteResume(t));
    Quiet(s, s2, t, s2.tasks[t]);
  }

  lemma SwallowCancelStep(s: State, t: nat)
    requires Inv(s) && Enabled(s, SwallowCancel(t))
    ensures Inv(Apply(s, SwallowCancel(t)))
  {
    assert TaskOk(s, t);
    Quiet(s, Apply(s, SwallowCancel(t)), t, s.tasks[t].(cancelRequested := false));
  }

  lemma CleanPopStep(s: State, t: nat)
    requires Inv(s) && Enabled(s, CleanPop(t))
    ensures Inv(Apply(s, CleanPop(t)))
  {
    assert TaskOk(s, t);
    var run := s.tasks[t].run;
    var s2 := Apply(s, CleanPop(t));
    DropKeepsBook(s, s2, run, t, true);
    assert s2.offers[..|s.offers|] == s.offers;
    assert OnRecord(s.audits, run) == Kept(s.offers, run);
    assert TookAt(s2.offers, |s.offers|, run, t, OnRecord(s.audits, run));
    Quiet(s, s2, t, s2.tasks[t]);
  }

  lemma TaskLeaveStep(s: State, t: nat)
    requires Inv(s) && Enabled(s, TaskLeave(t))
    ensures Inv(Apply(s, TaskLeave(t)))
  {
    assert TaskOk(s, t);
    var s2 := Apply(s, TaskLeave(t));
    DropKeepsBook(s, s2, s.tasks[t].run, t, false);
    Quiet(s, s2, t, s2.tasks[t]);
  }

  lemma PcAfterCancelOk(s: State, t: nat, suspending: bool)
    requires t in s.tasks && TaskOk(s, t) && !s.tasks[t].pc.Done?
    ensures PcOk(s, t, PcAfterCancel(s.tasks[t].pc, suspending))
    ensures AuditOk(s, t, s.tasks[t].(pc := PcAfterCancel(s.tasks[t].pc, suspending), cancelRequested := false))
  {
  }

  lemma DeliverCancelStep(s: State, t: nat)
    requires Inv(s) && Enabled(s, DeliverCancel(t))
    ensures Inv(Apply(s, DeliverCancel(t)))
  {
    assert TaskOk(s, t);
    var task := s.tasks[t];
    PcAfterCancelOk(s, t, task.run in s.suspending);
    Quiet(s, ThrowCancelled(s, t), t, task.(pc := PcAfterCancel(task.pc, task.run in s.suspending), cancelRequested := false));
  }

  /** A fenced write under t that the step follows by moving the task to `task`. */
  lemma Written(s: State, s2: State, t: nat, body: Body, wf: bool, task: Task)
    requires Inv(s) && t in s.tasks && Persist(s, s.tasks[t].run, body, t, wf).Committed?
    requires s2 == s.(j := Persist(s, s.tasks[t].run, body, t, wf).journal, tasks := s.tasks[t := task], orphans := s2.orphans, calls := s2.calls)
    requires s2.orphans <= s.orphans
    requires task.run == s.tasks[t].run && (s.tasks[t].pc.Done? ==> task.pc == s.tasks[t].pc)
    requires !task.pc.Done? ==> !s.tasks[t].pc.Done?
    requires PcOk(s2, t, task.pc) && AuditOk(s2, t, task) && (SawTerminal(task.pc) ==> SawTerminal(s.tasks[t].pc) || body.Terminal?)
    requires forall c :: c in s2.calls ==> (c in s.calls && s2.calls[c] == s.calls[c]) || CallOk(s2, c)
    ensures Inv(s2)
  {
    assert TaskOk(s, t);
    PersistMoves(s, s.tasks[t].run, body, t, wf);
    assert Around(s, s2, t);
    TokenFrame(s, s2, t, task.run);
    EvolvesTrans(s.j, s2.j, t, task.run);
    OneTask(s, s2, t);
  }

  lemma WriteAcceptedStep(s: State, t: nat, wf: bool)
    requires Inv(s) && Enabled(s, WriteCommit(t, wf)) && Persist(s, s.tasks[t].run, Pending(s.tasks[t].pc), t, wf).Committed?
    ensures Inv(Apply(s, WriteCommit(t, wf)))
  {
    assert TaskOk(s, t);
    var task := s.tasks[t];
    var body := Pending(task.pc);
    PersistMoves(s, task.run, body, t, wf);
    var s2 := Apply(s, WriteCommit(t, wf));
    AuditsFrame(s.j, s2.j, t);
    Written(s, s2, t, body, wf, task.(pc := task.pc.(reply := Accepted)));
  }

  lemma WriteCommitStep(s: State, t: nat, wf: bool)
    requires Inv(s) && Enabled(s, WriteCommit(t, wf))
    ensures Inv(Apply(s, WriteCommit(t, wf)))
  {
    var task := s.tasks[t];
    if Persist(s, task.run, Pending(task.pc), t, wf).Committed? {
      WriteAcceptedStep(s, t, wf);
    } else {
      assert TaskOk(s, t);
      if wf { PersistRefused(s, t, Pending(task.pc)); }
      Quiet(s, Apply(s, WriteCommit(t, wf)), t, task.(pc := task.pc.(reply := Refused)));
    }
  }

  lemma AuditsExtend(log: seq<Entry>, e: Entry, t: nat)
    requires e.token == t && e.body.Audit?
    ensures AuditsBy(log + [e], t) == AuditsBy(log, t) + [e.body.n]
  {
    assert (log + [e])[..|log + [e]| - 1] == log;
  }

  lemma AuditAcceptedStep(s: State, t: nat, wf: bool)
    requires Inv(s) && Enabled(s, CleanAudit(t, wf)) && s.tasks[t].pc.rest != []
    requires Persist(s, s.tasks[t].run, Audit(s.tasks[t].pc.rest[0]), t, wf).Committed?
    ensures Inv(Apply(s, CleanAudit(t, wf)))
  {
    assert TaskOk(s, t);
    var task := s.tasks[t];
    var body := Audit(task.pc.rest[0]);
    var s2 := Apply(s, CleanAudit(t, wf));
    PersistMoves(s, task.run, body, t, wf);
    AuditTaken(s, s2, t, task);
    Written(s, s2, t, body, wf, s2.tasks[t]);
  }

  lemma AuditTaken(s: State, s2: State, t: nat, task: Task)
    requires AuditOk(s, t, task) && task.pc.Auditing? && task.pc.rest != [] && s2.offers == s.offers
    requires s2.j.log == s.j.log + [Entry(task.run, Audit(task.pc.rest[0]), t)]
    ensures AuditOk(s2, t, task.(pc := Auditing(task.pc.rest[1..]), written := task.written + 1))
  {
    AuditsExtend(s.j.log, Entry(task.run, Audit(task.pc.rest[0]), t), t);
    var p := task.popped.value;
    assert p[..task.written + 1] == p[..task.written] + [p[task.written]];
  }

  lemma CleanAuditStep(s: State, t: nat, wf: bool)
    requires Inv(s) && Enabled(s, CleanAudit(t, wf))
    ensures Inv(Apply(s, CleanAudit(t, wf)))
  {
    var rest := s.tasks[t].pc.rest;
    if rest != [] && Persist(s, s.tasks[t].run, Audit(rest[0]), t, wf).Committed? {
      AuditAcceptedStep(s, t, wf);
    } else {
      AuditsOver(s, t, rest != []);
    }
  }

  lemma AuditsOver(s: State, t: nat, failed: bool)
    requires Inv(s) && t in s.tasks && s.tasks[t].pc.Auditing?
    ensures Inv(SetPc(s, t, Concluding(failed)))
  {
    assert TaskOk(s, t);
    Quiet(s, SetPc(s, t, Concluding(failed)), t, s.tasks[t].(pc := Concluding(failed)));
  }

  lemma CleanTerminalStep(s: State, t: nat)
    requires Inv(s) && Enabled(s, CleanTerminal(t))
    ensures Inv(Apply(s, CleanTerminal(t)))
  {
    match Terminate(s.j, s.tasks[t].run, Cancelled, s.me, t)
    case Rejected => CleanTerminalRefused(s, t);
    case Committed(k) => CleanTerminalAccepted(s, t, SetPc(s.(j := k), t, Leaving(CancelledClean, s.tasks[t].pc.failed)));
  }

  lemma CleanTerminalRefused(s: State, t: nat)
    requires Inv(s) && t in s.tasks && s.tasks[t].pc.Concluding? && Terminate(s.j, s.tasks[t].run, Cancelled, s.me, t).Rejected?
    ensures Inv(SetPc(s, t, Leaving(Failed, true)))
  {
    assert TaskOk(s, t);
    PersistRefused(s, t, Terminal(Cancelled));
    Quiet(s, SetPc(s, t, Leaving(Failed, true)), t, s.tasks[t].(pc := Leaving(Failed, true)));
  }

  lemma CleanTerminalAccepted(s: State, t: nat, s2: State)
    requires Inv(s) && t in s.tasks && s.tasks[t].pc.Concluding? && Terminate(s.j, s.tasks[t].run, Cancelled, s.me, t) == Committed(s2.j)
    requires s2 == SetPc(s.(j := s2.j), t, Leaving(CancelledClean, s.tasks[t].pc.failed))
    ensures Inv(s2)
  {
    assert TaskOk(s, t);
    PersistMoves(s, s.tasks[t].run, Terminal(Cancelled), t, true);
    AuditsFrame(s.j, s2.j, t);
    Written(s, s2, t, Terminal(Cancelled), true, s2.tasks[t]);
  }

  lemma ReleasedTask(s: State, s2: State, t: nat)
    requires Inv(s) && t in s.tasks && s.tasks[t].pc.Releasing? && Holds(s.j, s.tasks[t].run, s.me, t)
    requires s2 == s.(j := s.j.(lease := None), released := s.released + {t}, tasks := s.tasks[t := s.tasks[t].(pc := Leaving(Suspended, false))])
    ensures Around(s, s2, t) && TaskOk(s2, t)
  {
    assert TaskOk(s, t);
    assert Moves(s, s2);
    TokenFrame(s, s2, t, s.tasks[t].run);
  }

  lemma ReleaseLeaseStep(s: State, t: nat)
    requires Inv(s) && Enabled(s, ReleaseLease(t))
    ensures Inv(Apply(s, ReleaseLease(t)))
  {
    var s2 := Apply(s, ReleaseLease(t));
    if Release(s.j, s.tasks[t].run, s.me, t).Committed? {
      ReleasedTask(s, s2, t);
      OneTask(s, s2, t);
    } else {
      assert TaskOk(s, t);
      Quiet(s, s2, t, s.tasks[t].(pc := Leaving(Failed, true)));
    }
  }

  lemma OrphanAcceptedStep(s: State, o: Orphan, wf: bool)
    requires Inv(s) && o in s.orphans && Persist(s, o.run, o.body, o.token, wf).Committed?
    ensures Inv(s.(orphans := s.orphans - multiset{o}, j := Persist(s, o.run, o.body, o.token, wf).journal))
  {
    var t := o.token;
    assert OrphanOk(s, o) && TaskOk(s, t);
    PersistMoves(s, o.run, o.body, t, wf);
    var s2 := s.(orphans := s.orphans - multiset{o}, j := Persist(s, o.run, o.body, t, wf).journal);
    AuditsFrame(s.j, s2.j, t);
    assert s2.tasks == s.tasks[t := s.tasks[t]];
    Written(s, s2, t, o.body, wf, s.tasks[t]);
  }

  lemma OrphanCommitStep(s: State, o: Orphan, wf: bool)
    requires Inv(s) && Enabled(s, OrphanCommit(o, wf))
    ensures Inv(Apply(s, OrphanCommit(o, wf)))
  {
    if Persist(s, o.run, o.body, o.token, wf).Committed? {
      OrphanAcceptedStep(s, o, wf);
    } else {
      OrphanDropped(s, o);
    }
  }

  lemma OrphanDropped(s: State, o: Orphan)
    requires Inv(s) && o in s.orphans
    ensures Inv(s.(orphans := s.orphans - multiset{o}))
  {
    assert OrphanOk(s, o) && TaskOk(s, o.token);
    var s2 := s.(orphans := s.orphans - multiset{o});
    assert Around(s, s2, o.token);
    assert TaskOk(s2, o.token);
    OneTask(s, s2, o.token);
  }

  /** A call step that writes nothing: its own program counter moves, and the task may be
      asked to cancel or lose its place as the active one. */
  lemma CallStep(s: State, s2: State, c: nat, t: nat)
    requires Inv(s) && t in s.tasks && c in s2.calls && s2.calls == s.calls[c := s2.calls[c]] && s2.calls[c].token == t
    requires s2.j == s.j && s2.me == s.me && s2.starter == s.starter && s2.orphans == s.orphans
    requires s.offers <= s2.offers && s2.stolen == s.stolen && s2.released == s.released
    requires s2.tasks == s.tasks || (!s.tasks[t].pc.Done? && s2.tasks == s.tasks[t := s.tasks[t].(cancelRequested := true)])
    requires s2.active == s.active || (s2.active == None && s.active.Some? && s.active.value.token == t && s.tasks[t].pc.Done?)
    requires (s2.audits == s.audits && s2.offers == s.offers) || BookOk(s2)
    requires CallOk(s2, c)
    ensures Inv(s2)
  {
    assert TaskOk(s, t);
    assert Around(s, s2, t);
    AuditOkGrows(s, s2, t, s.tasks[t]);
    assert TaskOk(s2, t);
    OneTask(s, s2, t);
  }

  lemma CancelBeginStep(s: State, c: nat, run: RunId, auditEvents: seq<int>)
    requires Inv(s) && Enabled(s, CancelBegin(c, run, auditEvents))
    ensures Inv(Apply(s, CancelBegin(c, run, auditEvents)))
  {
    CancelRequested(s, c, run, auditEvents, s.active.value.token);
  }

  lemma CancelRequested(s: State, c: nat, run: RunId, auditEvents: seq<int>, t: nat)
    requires Inv(s) && c !in s.calls && t in s.tasks
    ensures Inv(RequestCancel(RecordAudits(s.(calls := s.calls[c := Call(false, t, Awaiting)]), run, auditEvents), t))
  {
    var s2 := RequestCancel(RecordAudits(s.(calls := s.calls[c := Call(false, t, Awaiting)]), run, auditEvents), t);
    OfferKeepsBook(s, s2, run, auditEvents);
    CallStep(s, s2, c, t);
  }

  lemma SuspendBeginStep(s: State, c: nat, run: RunId)
    requires Inv(s) && Enabled(s, SuspendBegin(c, run))
    ensures Inv(Apply(s, SuspendBegin(c, run)))
  {
    CallStep(s, Apply(s, SuspendBegin(c, run)), c, s.active.value.token);
  }

  lemma CallObserveStep(s: State, c: nat)
    requires Inv(s) && Enabled(s, CallObserve(c))
    ensures Inv(Apply(s, CallObserve(c)))
  {
    assert CallOk(s, c) && TaskOk(s, s.calls[c].token);
    CallStep(s, Apply(s, CallObserve(c)), c, s.calls[c].token);
  }

  lemma CancelCheckStep(s: State, c: nat)
    requires Inv(s) && Enabled(s, CancelCheck(c))
    ensures Inv(Apply(s, CancelCheck(c)))
  {
    assert CallOk(s, c) && TaskOk(s, s.calls[c].token);
    CallStep(s, Apply(s, CancelCheck(c)), c, s.calls[c].token);
  }

  lemma CallFinishStep(s: State, c: nat)
    requires Inv(s) && Enabled(s, CallFinish(c))
    ensures Inv(Apply(s, CallFinish(c)))
  {
    CallFinished(s, c, s.calls[c]);
  }

  lemma CallFinished(s: State, c: nat, call: Call)
    requires Inv(s) && c in s.calls && call == s.calls[c] && call.pc.Finishing?
    ensures call.token in s.tasks && Inv(FinishCall(s, c, call))
  {
    assert CallOk(s, c) && TaskOk(s, call.token);
    CallStep(s, FinishCall(s, c, call), c, call.token);
  }

  lemma CancelPersistStep(s: State, c: nat)
    requires Inv(s) && Enabled(s, CancelPersist(c))
    ensures Inv(Apply(s, CancelPersist(c)))
  {
    var t := s.calls[c].token;
    assert CallOk(s, c);
    if Persist(s, s.tasks[t].run, Terminal(Cancelled), t, true).Committed? {
      CallPersisted(s, c, t);
    } else {
      CallRefused(s, c, t);
    }
  }

  lemma CallPersisted(s: State, c: nat, t: nat)
    requires Inv(s) && c in s.calls && s.calls[c].pc.Persisting? && s.calls[c].token == t && t in s.tasks
    requires Persist(s, s.tasks[t].run, Terminal(Cancelled), t, true).Committed?
    ensures Inv(PersistFromCall(s, c, t))
  {
    assert CallOk(s, c) && TaskOk(s, t);
    var s2 := PersistFromCall(s, c, t);
    PersistMoves(s, s.tasks[t].run, Terminal(Cancelled), t, true);
    AuditsFrame(s.j, s2.j, t);
    assert s2.tasks == s.tasks[t := s.tasks[t]];
    Written(s, s2, t, Terminal(Cancelled), true, s.tasks[t]);
  }

  lemma CallRefused(s: State, c: nat, t: nat)
    requires Inv(s) && c in s.calls && s.calls[c].pc.Persisting? && s.calls[c].token == t && t in s.tasks
    requires Persist(s, s.tasks[t].run, Terminal(Cancelled), t, true).Rejected?
    ensures Inv(PersistFromCall(s, c, t))
  {
    assert CallOk(s, c) && TaskOk(s, t);
    PersistRefused(s, t, Terminal(Cancelled));
    CallStep(s, PersistFromCall(s, c, t), c, t);
  }

  /** Steps that change only the journal and the starter, while no task runs under the
      token they touch. */
  lemma Beside(s: State, s2: State)
    requires Inv(s) && Moves(s, s2)
    requires s2.tasks == s.tasks && s2.calls == s.calls && s2.orphans == s.orphans && s2.active == s.active
    requires s2.audits == s.audits && s2.offers == s.offers
    requires forall t :: t in s.tasks ==>
      && (t in s2.released ==> t in s.released)
      && (Live(s.j, t) ==> Live(s2.j, t) || t in s2.stolen)
      && (|s2.j.log| == |s.j.log| + 1 ==> s2.j.log[|s.j.log|].token != t)
    ensures forall t :: t in s2.tasks ==> TaskOk(s2, t)
    ensures forall c :: c in s2.calls ==> CallOk(s2, c)
    ensures forall o :: o in s2.orphans ==> OrphanOk(s2, o)
  {
    forall t | t in s2.tasks ensures TaskOk(s2, t) {
      assert TaskOk(s, t);
      TaskFrame(s, s2, t);
    }
    forall c | c in s2.calls ensures CallOk(s2, c) { CallFrame(s, s2, c); }
    forall o | o in s2.orphans ensures OrphanOk(s2, o) { assert OrphanOk(s, o); }
  }

  lemma StartQuietStep(s: State, step: Step)
    requires Inv(s) && Enabled(s, step) && (step.StartBegin? || step.StartCancel? || step.StartFail?)
    ensures Inv(Apply(s, step))
  {
    var s2 := Apply(s, step);
    assert Moves(s, s2);
    Beside(s, s2);
  }

  lemma StartCommitStep(s: State)
    requires Inv(s) && Enabled(s, StartCommit)
    ensures Inv(Apply(s, StartCommit))
  {
    var b := s.starter;
    match if b.isNew then BeginRun(s.j, b.run, s.me) else ResumeRun(s.j, b.run, s.me)
    case Rejected => StarterGivesUp(s);
    case Committed(k) => StartCommitted(s, k, s.(j := k, starter := Begun(b.run, b.isNew, b.cancelled, s.j.nextToken)));
  }

  lemma StarterGivesUp(s: State)
    requires Inv(s) && (s.starter.Begun? ==> !Live(s.j, s.starter.token))
    ensures Inv(s.(starter := Idle))
  {
    assert Moves(s, s.(starter := Idle));
    Beside(s, s.(starter := Idle));
  }

  lemma StartCommitted(s: State, k: Journal, s2: State)
    requires Inv(s) && s.starter.Beginning? && (BeginRun(s.j, s.starter.run, s.me) == Committed(k) || ResumeRun(s.j, s.starter.run, s.me) == Committed(k))
    requires s2 == s.(j := k, starter := Begun(s.starter.run, s.starter.isNew, s.starter.cancelled, s.j.nextToken))
    ensures Inv(s2)
  {
    if BeginRun(s.j, s.starter.run, s.me) == Committed(k) { BeginRunKeeps(s.j, s.starter.run, s.me); } else { ResumeRunKeeps(s.j, s.starter.run, s.me); }
    AuditsNone(s.j.log, s.j.nextToken);
    AuditsFrame(s.j, s2.j, s.j.nextToken);
    forall t | t in s.tasks ensures t < s.j.nextToken { assert TaskOk(s, t); }
    assert Moves(s, s2);
    Beside(s, s2);
  }

  lemma StartTerminateStep(s: State)
    requires Inv(s) && Enabled(s, StartCleanup) && s.starter.isNew
    ensures Inv(Apply(s, StartCleanup))
  {
    match Terminate(s.j, s.starter.run, Cancelled, s.me, s.starter.token)
    case Rejected => StarterGivesUp(s);
    case Committed(k) => StartTerminated(s, s.(starter := Idle, j := k));
  }

  lemma StartTerminated(s: State, s2: State)
    requires Inv(s) && s.starter.Begun? && Terminate(s.j, s.starter.run, Cancelled, s.me, s.starter.token) == Committed(s2.j)
    requires s2 == s.(starter := Idle, j := s2.j)
    ensures Inv(s2)
  {
    TerminateKeeps(s.j, s.starter.run, Cancelled, s.me, s.starter.token);
    assert Moves(s, s2);
    Beside(s, s2);
  }

  lemma StartReleased(s: State, s2: State)
    requires Inv(s) && s.starter.Begun? && Live(s.j, s.starter.token)
    requires s2 == s.(starter := Idle, j := s.j.(lease := None), released := s.released + {s.starter.token})
    ensures Inv(s2)
  {
    assert Moves(s, s2);
    Beside(s, s2);
  }

  lemma StartReleaseStep(s: State)
    requires Inv(s) && Enabled(s, StartCleanup) && !s.starter.isNew
    ensures Inv(Apply(s, StartCleanup))
  {
    var b := s.starter;
    if Holds(s.j, b.run, s.me, b.token) {
      StartReleased(s, Apply(s, StartCleanup));
    } else {
      StarterGivesUp(s);
    }
  }

  lemma StartInstallStep(s: State)
    requires Inv(s) && Enabled(s, StartInstall)
    ensures Inv(Apply(s, StartInstall))
  {
    Installed(s, s.starter.run, s.starter.token);
  }

  lemma EveryTaskOk(s: State, s2: State)
    requires Inv(s) && s.starter.Begun? && Moves(s, s2) && s2 == InstallRun(s, s.starter.run, s.starter.token)
    ensures forall t :: t in s2.tasks ==> TaskOk(s2, t)
  {
    InstalledTask(s, s2);
    forall t | t in s2.tasks ensures TaskOk(s2, t) {
      if t != s.starter.token {
        assert TaskOk(s, t);
        assert s.tasks[t].pc.Done?;
        TaskFrame(s, s2, t);
      }
    }
  }

  lemma Installed(s: State, run: RunId, token: nat)
    requires Inv(s) && s.starter.Begun? && run == s.starter.run && token == s.starter.token
    ensures Inv(InstallRun(s, run, token))
  {
    var s2 := InstallRun(s, run, token);
    assert Moves(s, s2);
    EveryTaskOk(s, s2);
    EveryCallOk(s, s2);
  }

  lemma EveryCallOk(s: State, s2: State)
    requires Inv(s) && s.starter.Begun? && Moves(s, s2) && s2 == InstallRun(s, s.starter.run, s.starter.token)
    ensures forall c :: c in s2.calls ==> CallOk(s2, c)
    ensures forall o :: o in s2.orphans ==> OrphanOk(s2, o)
  {
    forall c | c in s2.calls ensures CallOk(s2, c) { assert CallOk(s, c); CallFrame(s, s2, c); }
    forall o | o in s2.orphans ensures OrphanOk(s2, o) { assert OrphanOk(s, o); }
  }

  lemma InstalledTask(s: State, s2: State)
    requires Inv(s) && s.starter.Begun?
    requires s2.j == s.j && s2.me == s.me && s2.stolen == s.stolen && s2.released == s.released
    requires s2.active == Some(Active(s.starter.run, s.starter.token))
    requires s2.tasks == s.tasks[s.starter.token := Task(s.starter.run, Ready, false, None, 0)]
    ensures TaskOk(s2, s.starter.token)
  {
  }

  lemma ForeignKeeps(j: Journal, f: Foreign)
    requires Valid(j) && ForeignCommit(j, f).Committed? && (f.FUnfencedAppend? ==> !HasTerminal(j.log, f.run))
    ensures var k := ForeignCommit(j, f).journal; Valid(k) && Evolves(j, k)
    ensures var k := ForeignCommit(j, f).journal; !f.FRecover? ==> k.lease == j.lease || f.FBegin? || f.FResume? || Holds(j, f.run, f.owner, f.token)
  {
    match f {
      case FBegin(run, o) => BeginRunKeeps(j, run, o);
      case FResume(run, o) => ResumeRunKeeps(j, run, o);
      case FAppend(run, n, o, t) => AppendKeeps(j, run, Stream(n), o, t);
      case FTerminate(run, st, o, t) => TerminateKeeps(j, run, st, o, t);
      case FRelease(run, o, t) =>
      case FUnfencedAppend(run, n) => AppendUnfencedKeeps(j, run, Stream(n));
      case FUnfencedTerminate(run, st) => TerminateUnfencedKeeps(j, run, st);
      case FRecover(o, a) => RecoverLeaseKeeps(j, o, a);
    }
  }

  /** What a foreign transaction may do to a token of ours: nothing, unless it is a recovery. */
  lemma ForeignSpares(s: State, f: Foreign, t: nat)
    requires Inv(s) && Enabled(s, ForeignStep(f)) && ForeignCommit(s.j, f).Committed? && Owns(s, t) && 1 <= t < s.j.nextToken
    ensures var k := ForeignCommit(s.j, f).journal;
      && (Live(s.j, t) ==> Live(k, t) || (f.FRecover? && k.lease.None?))
      && (|k.log| == |s.j.log| + 1 ==> k.log[|s.j.log|].token != t)
  {
  }

  lemma ForeignStarter(s: State, f: Foreign)
    requires Inv(s) && Enabled(s, ForeignStep(f)) && ForeignCommit(s.j, f).Committed? && s.starter.Begun?
    requires Moves(s, ApplyForeign(s, f))
    ensures var s2 := ApplyForeign(s, f); AuditsBy(s2.j.log, s.starter.token) == [] && TokenOk(s2, s.starter.token, s.starter.run)
  {
    var s2 := ApplyForeign(s, f);
    ForeignSpares(s, f, s.starter.token);
    TokenFrame(s, s2, s.starter.token, s.starter.run);
    AuditsFrame(s.j, s2.j, s.starter.token);
  }

  lemma ForeignLease(s: State, f: Foreign)
    requires Inv(s) && Enabled(s, ForeignStep(f)) && ForeignCommit(s.j, f).Committed?
    ensures var k := ForeignCommit(s.j, f).journal;
      k.lease.Some? ==> (k.lease.value.owner == s.me <==> Owns(s, k.lease.value.token))
  {
    assert s.j.nextToken !in s.tasks;
  }

  lemma ForeignStepKeeps(s: State, f: Foreign)
    requires Inv(s) && Enabled(s, ForeignStep(f))
    ensures Inv(Apply(s, ForeignStep(f)))
  {
    if ForeignCommit(s.j, f).Committed? { ForeignCommitted(s, ApplyForeign(s, f), f); }
  }

  lemma ForeignTask(s: State, s2: State, f: Foreign, t: nat)
    requires Inv(s) && Enabled(s, ForeignStep(f)) && ForeignCommit(s.j, f).Committed? && s2 == ApplyForeign(s, f) && t in s.tasks
    ensures Live(s.j, t) ==> Live(s2.j, t) || t in s2.stolen
    ensures |s2.j.log| == |s.j.log| + 1 ==> s2.j.log[|s.j.log|].token != t
  {
    assert TaskOk(s, t);
    ForeignSpares(s, f, t);
  }

  lemma ForeignCommitted(s: State, s2: State, f: Foreign)
    requires Inv(s) && Enabled(s, ForeignStep(f)) && ForeignCommit(s.j, f).Committed? && s2 == ApplyForeign(s, f)
    ensures Inv(s2)
  {
    ForeignKeeps(s.j, f);
    assert Moves(s, s2);
    forall t | t in s.tasks
      ensures (Live(s.j, t) ==> Live(s2.j, t) || t in s2.stolen) && (|s2.j.log| == |s.j.log| + 1 ==> s2.j.log[|s.j.log|].token != t)
    {
      ForeignTask(s, s2, f, t);
    }
    Beside(s, s2);
    ForeignLease(s, f);
    if s.starter.Begun? { ForeignStarter(s, f); }
  }

  lemma StartStepKeeps(s: State, step: Step)
    requires Inv(s) && Enabled(s, step)
    requires step.StartBegin? || step.StartCancel? || step.StartFail? || step.StartCommit? || step.StartInstall? || step.StartCleanup?
    ensures Inv(Apply(s, step))
  {
    match step {
      case StartBegin(_, _) => StartQuietStep(s, step);
      case StartCancel => StartQuietStep(s, step);
      case StartFail => StartQuietStep(s, step);
      case StartCommit => StartCommitStep(s);
      case StartInstall => StartInstallStep(s);
      case StartCleanup => if s.starter.isNew { StartTerminateStep(s); } else { StartReleaseStep(s); }
    }
  }

  lemma StreamStepKeeps(s: State, step: Step)
    requires Inv(s) && Enabled(s, step)
    requires step.TaskStart? || step.TaskPull? || step.TaskStreamEnd? || step.TaskStreamError? || step.WriteCommit? || step.WriteResume?
    ensures Inv(Apply(s, step))
  {
    match step {
      case TaskStart(t) => TaskStartStep(s, t);
      case TaskPull(t, body) => TaskPullStep(s, t, body);
      case TaskStreamEnd(t) => TaskStreamEndStep(s, t);
      case TaskStreamError(t) => TaskStreamErrorStep(s, t);
      case WriteCommit(t, wf) => WriteCommitStep(s, t, wf);
      case WriteResume(t) => WriteResumeStep(s, t);
    }
  }

  lemma CleanupStepKeeps(s: State, step: Step)
    requires Inv(s) && Enabled(s, step)
    requires step.SwallowCancel? || step.DeliverCancel? || step.CleanPop? || step.CleanAudit? || step.CleanTerminal?
          || step.ReleaseLease? || step.TaskLeave? || step.OrphanCommit?
    ensures Inv(Apply(s, step))
  {
    match step {
      case SwallowCancel(t) => SwallowCancelStep(s, t);
      case DeliverCancel(t) => DeliverCancelStep(s, t);
      case CleanPop(t) => CleanPopStep(s, t);
      case CleanAudit(t, wf) => CleanAuditStep(s, t, wf);
      case CleanTerminal(t) => CleanTerminalStep(s, t);
      case ReleaseLease(t) => ReleaseLeaseStep(s, t);
      case TaskLeave(t) => TaskLeaveStep(s, t);
      case OrphanCommit(o, wf) => OrphanCommitStep(s, o, wf);
    }
  }

  lemma CallStepKeeps(s: State, step: Step)
    requires Inv(s) && Enabled(s, step)
    requires step.CancelBegin? || step.SuspendBegin? || step.CallObserve? || step.CancelCheck? || step.CancelPersist? || step.CallFinish?
    ensures Inv(Apply(s, step))
  {
    match step {
      case CancelBegin(c, run, a) => CancelBeginStep(s, c, run, a);
      case SuspendBegin(c, run) => SuspendBeginStep(s, c, run);
      case CallObserve(c) => CallObserveStep(s, c);
      case CancelCheck(c) => CancelCheckStep(s, c);
      case CancelPersist(c) => CancelPersistStep(s, c);
      case CallFinish(c) => CallFinishStep(s, c);
    }
  }

  lemma StepKeepsInv(s: State, step: Step)
    requires Inv(s) && Enabled(s, step)
    ensures Inv(Apply(s, step))
  {
    if step.ForeignStep? {
      ForeignStepKeeps(s, step.f);
    } else if step.CancelBegin? || step.SuspendBegin? || step.CallObserve? || step.CancelCheck? || step.CancelPersist? || step.CallFinish? {
      CallStepKeeps(s, step);
    } else if step.TaskStart? || step.TaskPull? || step.TaskStreamEnd? || step.TaskStreamError? || step.WriteCommit? || step.WriteResume? {
      StreamStepKeeps(s, step);
    } else if step.StartBegin? || step.StartCancel? || step.StartFail? || step.StartCommit? || step.StartInstall? || step.StartCleanup? {
      StartStepKeeps(s, step);
    } else {
      CleanupStepKeeps(s, step);
    }
  }

  lemma {:induction false} RunKeepsInv(s: State, steps: seq<Step>)
    requires Inv(s) && Schedulable(s, steps)
    ensures Inv(Run(s, steps))
    decreases |steps|
  {
    if steps != [] {
      StepKeepsInv(s, steps[0]);
      RunKeepsInv(Apply(s, steps[0]), steps[1..]);
    }
  }

  // ---------------------------------------------------------------------------
  // Theorems about every schedule of one coordinator.

  lemma Reached(me: OwnerId, steps: seq<Step>)
    requires Schedulable(Init(me), steps)
    ensures Inv(Run(Init(me), steps))
  {
    RunKeepsInv(Init(me), steps);
  }

  function CountTerminals(log: seq<Entry>, run: RunId): nat {
    if log == [] then 0
    else CountTerminals(log[..|log| - 1], run) + (if log[|log| - 1].run == run && log[|log| - 1].body.Terminal? then 1 else 0)
  }

  lemma {:induction false} CountIsOne(log: seq<Entry>, run: RunId)
    requires TerminalIsLast(log)
    ensures CountTerminals(log, run) == if HasTerminal(log, run) then 1 else 0
  {
    if log != [] {
      var init := log[..|log| - 1];
      assert log == init + [log[|log| - 1]];
      HasTerminalAfterInsert(init, log[|log| - 1], run);
      CountIsOne(init, run);
      if HasTerminal(init, run) {
        var i :| 0 <= i < |init| && init[i].run == run && init[i].body.Terminal?;
        assert log[i] == init[i];
      }
    }
  }

  /** A run has at most one terminal event, and no event of the run follows it. */
  lemma TerminalEventsAreFinal(me: OwnerId, steps: seq<Step>, run: RunId)
    requires Schedulable(Init(me), steps)
    ensures var log := Run(Init(me), steps).j.log;
      && CountTerminals(log, run) <= 1
      && (forall i, k :: 0 <= i < k < |log| && log[i].run == run && log[i].body.Terminal? ==> log[k].run != run)
  {
    Reached(me, steps);
    CountIsOne(Run(Init(me), steps).j.log, run);
  }

  /** At most one consumer is unfinished, it is the active one, and the lease is never
      orphaned: if this coordinator holds it, the starting call or the task it was taken
      for still has it, except for the two ways a task can be cut off before it can give
      the lease back. */
  lemma LeaseIsAccountedFor(me: OwnerId, steps: seq<Step>)
    requires Schedulable(Init(me), steps)
    ensures var s := Run(Init(me), steps);
      && (forall t, u :: t in s.tasks && u in s.tasks && !s.tasks[t].pc.Done? && !s.tasks[u].pc.Done? ==> t == u)
      && (forall t :: t in s.tasks && !s.tasks[t].pc.Done? ==> s.active == Some(Active(s.tasks[t].run, t)))
      && (s.j.lease.Some? && s.j.lease.value.owner == me ==>
            var l := s.j.lease.value;
            || (s.starter.Begun? && s.starter.token == l.token && s.starter.run == l.run)
            || (l.token in s.tasks && s.tasks[l.token].run == l.run
                && (s.tasks[l.token].pc.Done? ==> s.tasks[l.token].pc.how.Unstarted? || s.tasks[l.token].pc.how.Abandoned?)))
  {
    Reached(me, steps);
    MeIsFixed(Init(me), steps);
    var s := Run(Init(me), steps);
    forall t | t in s.tasks ensures TaskOk(s, t) {}
  }

  lemma {:induction false} MeIsFixed(s: State, steps: seq<Step>)
    requires Schedulable(s, steps)
    ensures Run(s, steps).me == s.me
    decreases |steps|
  {
    if steps != [] { MeIsFixed(Apply(s, steps[0]), steps[1..]); }
  }

  /** A consumer that ended by itself, by error or by cancellation after it began leaves no
      lease behind and exactly one terminal event, unless the lease was given back for a
      restart or taken by recovery. */
  lemma FinishedRunIsClosed(me: OwnerId, steps: seq<Step>, t: nat)
    requires Schedulable(Init(me), steps)
    requires t in Run(Init(me), steps).tasks && Run(Init(me), steps).tasks[t].pc.Done?
    ensures var s := Run(Init(me), steps);
      var task := s.tasks[t];
      && (task.pc.how.Finished? || task.pc.how.CancelledClean? ==>
            !Live(s.j, t) && CountTerminals(s.j.log, task.run) == 1)
      && (task.pc.how.Failed? && t !in s.stolen ==>
            !Live(s.j, t) && CountTerminals(s.j.log, task.run) == 1)
      && (task.pc.how.Suspended? ==>
            !Live(s.j, t) && NoTerminalBy(s.j.log, t))
  {
    Reached(me, steps);
    var s := Run(Init(me), steps);
    assert TaskOk(s, t);
    CountIsOne(s.j.log, s.tasks[t].run);
  }

  /** Once a `cancel` call is over, whether it returned or raised, and however early the
      cancellation landed: the task's lease is gone and its run has exactly one terminal
      event, unless the run was suspended or its lease recovered. */
  lemma CancelClosesTheRun(me: OwnerId, steps: seq<Step>, c: nat)
    requires Schedulable(Init(me), steps)
    requires var s := Run(Init(me), steps); c in s.calls && !s.calls[c].suspend && (s.calls[c].pc.Returned? || s.calls[c].pc.Raised?)
    ensures var s := Run(Init(me), steps);
      var t := s.calls[c].token;
      && t in s.tasks && s.tasks[t].pc.Done?
      && !Live(s.j, t)
      && (t !in s.stolen && !s.tasks[t].pc.how.Suspended? ==> CountTerminals(s.j.log, s.tasks[t].run) == 1)
      && (s.calls[c].pc.Returned? ==> s.active != Some(Active(s.tasks[t].run, t)))
  {
    Reached(me, steps);
    var s := Run(Init(me), steps);
    assert CallOk(s, c) && TaskOk(s, s.calls[c].token);
    CountIsOne(s.j.log, s.tasks[s.calls[c].token].run);
  }

  /** Offer i is the first non-empty one for the run since the run's record was last dropped. */
  ghost predicate FirstOffer(offers: seq<Offer>, i: int, run: RunId) {
    && 0 <= i < |offers| && offers[i].Offered? && offers[i].run == run && offers[i].events != []
    && (forall k :: i < k < |offers| ==> !Drops(offers[k], run))
    && (forall k :: 0 <= k < i && NonEmptyOffer(offers[k], run) ==> DroppedBetween(offers, k, i, run))
  }

  predicate NonEmptyOffer(e: Offer, run: RunId) { e.Offered? && e.run == run && e.events != [] }

  ghost predicate DroppedBetween(offers: seq<Offer>, k: int, i: int, run: RunId) {
    exists d :: k < d < i < |offers| && 0 <= d && Drops(offers[d], run)
  }

  lemma {:induction false} NothingKept(offers: seq<Offer>, run: RunId, k: int)
    requires Kept(offers, run) == [] && 0 <= k < |offers| && NonEmptyOffer(offers[k], run)
    ensures exists d :: k < d < |offers| && Drops(offers[d], run)
    decreases |offers|
  {
    var n := |offers| - 1;
    if !Drops(offers[n], run) {
      NothingKept(offers[..n], run, k);
    }
  }

  lemma {:induction false} KeptIsFirstOffer(offers: seq<Offer>, run: RunId) returns (i: int)
    requires Kept(offers, run) != []
    ensures FirstOffer(offers, i, run) && offers[i].events == Kept(offers, run)
    decreases |offers|
  {
    var n := |offers| - 1;
    var front := offers[..n];
    if Kept(front, run) != [] {
      i := KeptIsFirstOffer(front, run);
      forall k | 0 <= k < i && NonEmptyOffer(offers[k], run) ensures DroppedBetween(offers, k, i, run) {
        assert NonEmptyOffer(front[k], run) && DroppedBetween(front, k, i, run);
        var d :| k < d < i && 0 <= d && Drops(front[d], run);
        assert Drops(offers[d], run);
      }
      assert forall k :: i < k < n ==> offers[k] == front[k];
    } else {
      i := n;
      forall k | 0 <= k < n && NonEmptyOffer(offers[k], run) ensures DroppedBetween(offers, k, n, run) {
        NothingKept(front, run, k);
        var d :| k < d < n && Drops(front[d], run);
        assert Drops(offers[d], run);
      }
    }
  }

  /** The cleanup of task t took, at entry n of the history, the tuple offered at entry i. */
  ghost predicate TookOffer(offers: seq<Offer>, n: int, i: int, run: RunId, t: nat) {
    0 <= n < |offers| && offers[n] == Dropped(run, t, true) && FirstOffer(offers[..n], i, run)
  }

  /** The audit events stored under a token are a prefix, in order and without repetition, of one tuple a caller
      offered: the first non-empty one since the run's record was last dropped, when the task's cleanup took it.
      All of them precede the run's terminal event. */
  lemma AuditEventsOnceInOrder(me: OwnerId, steps: seq<Step>, t: nat)
    requires Schedulable(Init(me), steps) && t in Run(Init(me), steps).tasks
    ensures var s := Run(Init(me), steps);
      var stored := AuditsBy(s.j.log, t);
      && (stored != [] ==> exists n, i :: TookOffer(s.offers, n, i, s.tasks[t].run, t) && stored <= s.offers[i].events)
      && (forall i, k | 0 <= i < |s.j.log| && 0 <= k < |s.j.log| && s.j.log[i].run == s.j.log[k].run ::
            s.j.log[i].body.Audit? && s.j.log[k].body.Terminal? ==> i < k)
  {
    Reached(me, steps);
    var s := Run(Init(me), steps);
    assert TaskOk(s, t);
    if AuditsBy(s.j.log, t) != [] {
      var n :| TookAt(s.offers, n, s.tasks[t].run, t, s.tasks[t].popped.value);
      var i := KeptIsFirstOffer(s.offers[..n], s.tasks[t].run);
      assert TookOffer(s.offers, n, i, s.tasks[t].run, t) && AuditsBy(s.j.log, t) <= s.offers[i].events;
    }
  }
}
