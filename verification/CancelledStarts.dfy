/**
 Calls that start a run and are cancelled while the journal is asked for the lease.  Such a call waits for the answer
 and, if it was given the lease, gives it back: a new run by its cancelled terminal, a resumed one by a plain release.
 */
module CancelledStarts {
  import opened Journal
  import opened Coordinator
  import opened CoordinatorProofs
  import opened LostLeases
  import opened Options

  lemma Same(j: Journal)
    ensures Evolves(j, j)
  {
  }

  lemma PersistEvolves(s: State, run: RunId, body: Body, t: nat, wf: bool)
    requires Inv(s)
    ensures var c := Persist(s, run, body, t, wf); Evolves(s.j, if c.Committed? then c.journal else s.j)
  {
    if Persist(s, run, body, t, wf).Committed? { PersistMoves(s, run, body, t, wf); } else { Same(s.j); }
  }

  lemma WriteEvolves(s: State, step: Step)
    requires Inv(s) && Enabled(s, step) && (step.WriteCommit? || step.CleanAudit? || step.OrphanCommit?)
    ensures Evolves(s.j, Apply(s, step).j)
  {
    match step {
      case WriteCommit(t, wf) => PersistEvolves(s, s.tasks[t].run, Pending(s.tasks[t].pc), t, wf);
      case CleanAudit(t, wf) =>
        var rest := s.tasks[t].pc.rest;
        if rest != [] { PersistEvolves(s, s.tasks[t].run, Audit(rest[0]), t, wf); } else { Same(s.j); }
      case OrphanCommit(o, wf) => PersistEvolves(s, o.run, o.body, o.token, wf);
    }
  }

  lemma TerminateEvolves(s: State, run: RunId, t: nat)
    requires Inv(s) && Terminate(s.j, run, Cancelled, s.me, t).Committed?
    ensures Evolves(s.j, Terminate(s.j, run, Cancelled, s.me, t).journal)
  {
    TerminateKeeps(s.j, run, Cancelled, s.me, t);
  }

  lemma CloseEvolves(s: State, step: Step)
    requires Inv(s) && Enabled(s, step) && (step.CleanTerminal? || step.CancelPersist?)
    ensures Evolves(s.j, Apply(s, step).j)
  {
    match step {
      case CleanTerminal(t) =>
        if Terminate(s.j, s.tasks[t].run, Cancelled, s.me, t).Committed? { TerminateEvolves(s, s.tasks[t].run, t); }
      case CancelPersist(c) =>
        var t := s.calls[c].token;
        if Terminate(s.j, s.tasks[t].run, Cancelled, s.me, t).Committed? { TerminateEvolves(s, s.tasks[t].run, t); }
    }
  }

  lemma StartEvolves(s: State, step: Step)
    requires Inv(s) && Enabled(s, step) && (step.StartCommit? || step.StartCleanup?)
    ensures Evolves(s.j, Apply(s, step).j)
  {
    var run := s.starter.run;
    if step.StartCommit? {
      if s.starter.isNew {
        if BeginRun(s.j, run, s.me).Committed? { BeginRunKeeps(s.j, run, s.me); }
      } else if ResumeRun(s.j, run, s.me).Committed? {
        ResumeRunKeeps(s.j, run, s.me);
      }
    } else if s.starter.isNew && Terminate(s.j, run, Cancelled, s.me, s.starter.token).Committed? {
      TerminateEvolves(s, run, s.starter.token);
    }
  }

  lemma StepEvolves(s: State, step: Step)
    requires Inv(s) && Enabled(s, step)
    ensures Evolves(s.j, Apply(s, step).j)
  {
    if step.WriteCommit? || step.CleanAudit? || step.OrphanCommit? {
      WriteEvolves(s, step);
    } else if step.CleanTerminal? || step.CancelPersist? {
      CloseEvolves(s, step);
    } else if step.StartCommit? || step.StartCleanup? {
      StartEvolves(s, step);
    } else if step.ForeignStep? {
      if ForeignCommit(s.j, step.f).Committed? { ForeignKeeps(s.j, step.f); }
    } else {
      LogStays(s, step);
    }
  }

  lemma LogStays(s: State, step: Step)
    requires Enabled(s, step)
    requires !step.WriteCommit? && !step.CleanAudit? && !step.OrphanCommit? && !step.CleanTerminal? && !step.CancelPersist?
          && !step.StartCommit? && !step.StartCleanup? && !step.ForeignStep?
    ensures Evolves(s.j, Apply(s, step).j)
  {
    if !step.ReleaseLease? {
      StaysPut(s, step);
      Same(s.j);
    }
  }

  lemma StaysPut(s: State, step: Step)
    requires Enabled(s, step)
    requires !step.WriteCommit? && !step.CleanAudit? && !step.OrphanCommit? && !step.CleanTerminal? && !step.CancelPersist?
          && !step.StartCommit? && !step.StartCleanup? && !step.ForeignStep? && !step.ReleaseLease?
    ensures Apply(s, step).j == s.j
  {
  }

  lemma ReleasedGrows(s: State, step: Step)
    requires Enabled(s, step)
    ensures s.released <= Apply(s, step).released
  {
  }

  /** The call's token has been given back: a new run is closed under it, a resumed one is only released. */
  ghost predicate GaveBack(s: State, b: Starter)
    requires b.Begun?
  {
    && 0 < b.token < s.j.nextToken && !Live(s.j, b.token)
    && if b.isNew then Entry(b.run, Terminal(Cancelled), b.token) in s.j.log
       else b.token in s.released && NoTerminalBy(s.j.log, b.token)
  }

  lemma CleanupGivesBack(s: State)
    requires Inv(s) && Ledger(s) && Enabled(s, StartCleanup) && s.starter.token !in s.stolen
    ensures GaveBack(Apply(s, StartCleanup), s.starter)
  {
    var b := s.starter;
    assert Holds(s.j, b.run, s.me, b.token);
    if b.isNew {
      var log := Apply(s, StartCleanup).j.log;
      assert log[|s.j.log|] == Entry(b.run, Terminal(Cancelled), b.token);
    } else {
      forall i | 0 <= i < |s.j.log| && s.j.log[i].token == b.token ensures !s.j.log[i].body.Terminal? {
        assert s.j.log[i].run == b.run;
      }
    }
  }

  lemma KeptBack(s: State, s2: State, b: Starter)
    requires b.Begun? && GaveBack(s, b) && Evolves(s.j, s2.j) && s.released <= s2.released
    requires Live(s2.j, b.token) ==> Live(s.j, b.token)
    ensures GaveBack(s2, b)
  {
    if b.isNew {
      var i :| 0 <= i < |s.j.log| && s.j.log[i] == Entry(b.run, Terminal(Cancelled), b.token);
      assert s2.j.log[i] == s2.j.log[..|s.j.log|][i];
    } else {
      forall i | 0 <= i < |s2.j.log| && s2.j.log[i].token == b.token ensures !s2.j.log[i].body.Terminal? {
        if i < |s.j.log| { assert s2.j.log[i] == s2.j.log[..|s.j.log|][i]; }
      }
    }
  }

  lemma StaysGivenBack(s: State, step: Step, b: Starter)
    requires Inv(s) && Enabled(s, step) && b.Begun? && GaveBack(s, b)
    ensures GaveBack(Apply(s, step), b)
  {
    StepEvolves(s, step);
    StepFrame(s, Apply(s, step), step);
    ReleasedGrows(s, step);
    KeptBack(s, Apply(s, step), b);
  }

  /** The cancelled call is still waiting to give its lease back. */
  predicate StillWaits(s: State, b: Starter) { s.starter == b && b.Begun? && b.cancelled }

  lemma WaitsOrGivesBack(s: State, step: Step)
    requires Inv(s) && Ledger(s) && Enabled(s, step) && StillWaits(s, s.starter) && s.starter.token !in s.stolen
    ensures StillWaits(Apply(s, step), s.starter) || GaveBack(Apply(s, step), s.starter)
  {
    if step.StartCleanup? { CleanupGivesBack(s); }
  }

  lemma {:induction false} StolenGrows(s: State, steps: seq<Step>)
    requires Schedulable(s, steps)
    ensures s.stolen <= Run(s, steps).stolen
    decreases |steps|
  {
    if steps != [] {
      StepFrame(s, Apply(s, steps[0]), steps[0]);
      StolenGrows(Apply(s, steps[0]), steps[1..]);
    }
  }

  lemma {:induction false} GivenBackForGood(s: State, steps: seq<Step>, b: Starter)
    requires Inv(s) && Schedulable(s, steps) && b.Begun? && GaveBack(s, b)
    ensures GaveBack(Run(s, steps), b)
    decreases |steps|
  {
    if steps != [] {
      StaysGivenBack(s, steps[0], b);
      StepKeepsInv(s, steps[0]);
      GivenBackForGood(Apply(s, steps[0]), steps[1..], b);
    }
  }

  lemma {:induction false} WaitsUntilGivenBack(s: State, steps: seq<Step>)
    requires Inv(s) && Ledger(s) && Schedulable(s, steps) && StillWaits(s, s.starter) && s.starter.token !in Run(s, steps).stolen
    ensures StillWaits(Run(s, steps), s.starter) || GaveBack(Run(s, steps), s.starter)
    decreases |steps|
  {
    if steps != [] {
      var s2 := Apply(s, steps[0]);
      StolenGrows(s, steps);
      WaitsOrGivesBack(s, steps[0]);
      StepKeepsInv(s, steps[0]);
      StepKeepsLedger(s, steps[0]);
      if StillWaits(s2, s.starter) { WaitsUntilGivenBack(s2, steps[1..]); } else { GivenBackForGood(s2, steps[1..], s.starter); }
    }
  }

  /**
   A start that was cancelled and yet was given the lease: in every schedule it either still waits, or its token is
   given back for good.  A new run then has its one terminal event, cancelled, written under that token; a resumed run
   has none by it, so it can be resumed again.  Only recovery can take the lease before.
   */
  lemma CancelledStartGivesBack(me: OwnerId, before: seq<Step>, after: seq<Step>)
    requires Schedulable(Init(me), before)
    requires var s := Run(Init(me), before);
      && s.starter.Begun? && s.starter.cancelled && Schedulable(s, after) && s.starter.token !in Run(s, after).stolen
    ensures var s := Run(Init(me), before);
      StillWaits(Run(s, after), s.starter) || GaveBack(Run(s, after), s.starter)
  {
    RunKeepsLedger(Init(me), before);
    WaitsUntilGivenBack(Run(Init(me), before), after);
  }
}
