/** Failure counts, recovery notices and alerts over whole histories of activations. */
module WatchdogAccounts {
  import opened Watchdog
  import opened WatchdogProofs
  import opened Options

  function One(b: bool): nat { if b then 1 else 0 }

  predicate Delivered(e: Effect) { e.Notice? && e.delivered }

  /** How many effects satisfy `p`. */
  function Count(p: Effect -> bool, effects: seq<Effect>): nat {
    if effects == [] then 0 else Count(p, effects[..|effects| - 1]) + One(p(effects[|effects| - 1]))
  }

  lemma {:induction false} CountConcat(p: Effect -> bool, a: seq<Effect>, b: seq<Effect>)
    ensures Count(p, a + b) == Count(p, a) + Count(p, b)
    decreases |b|
  {
    if b == [] {
      assert a + b == a;
    } else {
      assert (a + b)[..|a + b| - 1] == a + b[..|b| - 1];
      CountConcat(p, a, b[..|b| - 1]);
    }
  }

  function Crashes(ticks: seq<Tick>): nat {
    if ticks == [] then 0 else Crashes(ticks[..|ticks| - 1]) + One(ticks[|ticks| - 1].cut.Some?)
  }

  // ---- With crashes: every crash costs at most one lost command and one repeated notice ----

  /** The books: restarts asked for and notices sent against what the status file says. */
  datatype Books = Books(restarts: int, owed: int)

  function Step(b: Books, before: Status, e: Effect): Books {
    match e
    case Write(s) => Books(b.restarts + s.restarts - before.restarts, b.owed + s.recoveries - before.recoveries - One(s.pending) + One(before.pending))
    case Restart => b.(restarts := b.restarts - 1)
    case Alert(_, _) => b
    case Notice(_, delivered) => b.(owed := b.owed - One(delivered))
  }

  /** `restarts`: recorded minus issued; `owed`: recoveries minus notices minus the pending one. */
  function Balance(disk: Disk, effects: seq<Effect>): Books {
    if effects == [] then Books(0, 0)
    else
      var front := effects[..|effects| - 1];
      Step(Balance(disk, front), Load(DiskAfter(disk, front)), effects[|effects| - 1])
  }

  predicate IsRestart(e: Effect) { e.Restart? }

  lemma {:induction false} BalanceIs(disk: Disk, effects: seq<Effect>)
    ensures var there := Load(DiskAfter(disk, effects));
            Balance(disk, effects) == Books(
                                        there.restarts - Load(disk).restarts - Count(IsRestart, effects),
                                        there.recoveries - Load(disk).recoveries - Count(Delivered, effects) - One(there.pending) + One(Load(disk).pending))
    decreases |effects|
  {
    if effects != [] {
      BalanceIs(disk, effects[..|effects| - 1]);
    }
  }

  lemma {:induction false} BalanceConcat(disk: Disk, a: seq<Effect>, b: seq<Effect>)
    ensures var x, y := Balance(disk, a), Balance(DiskAfter(disk, a), b);
            Balance(disk, a + b) == Books(x.restarts + y.restarts, x.owed + y.owed)
  {
    BalanceIs(disk, a + b);
    BalanceIs(disk, a);
    BalanceIs(DiskAfter(disk, a), b);
    CountConcat(IsRestart, a, b);
    CountConcat(Delivered, a, b);
    DiskAfterConcat(disk, a, b);
  }

  lemma BalanceOne(disk: Disk, e: Effect)
    ensures Balance(disk, [e]) == Step(Books(0, 0), Load(disk), e)
  {
    assert [e][..0] == [];
  }

  lemma BalanceTwo(disk: Disk, e: Effect, f: Effect)
    ensures Balance(disk, [e, f]) == Step(Step(Books(0, 0), Load(disk), e), Load(DiskAfter(disk, [e])), f)
  {
    assert [e, f][..1] == [e];
    BalanceOne(disk, e);
  }

  lemma FlushBalance(s: Status, sendOk: bool, k: nat)
    requires k <= |FlushEffects(s, sendOk)|
    ensures var b := Balance(Some(s), FlushEffects(s, sendOk)[..k]);
            b.restarts == 0 && b.owed >= -1 && (k == |FlushEffects(s, sendOk)| ==> b.owed >= 0)
  {
    var all := FlushEffects(s, sendOk);
    if k == 1 {
      assert all[..1] == [all[0]];
      BalanceOne(Some(s), all[0]);
    } else if k == 2 {
      assert all[..2] == [all[0], all[1]];
      BalanceTwo(Some(s), all[0], all[1]);
      assert [all[0]][..0] == [];
      assert DiskAfter(Some(s), [all[0]]) == DiskAfter(Some(s), []);
    }
  }

  lemma HealthyBalance(disk: Disk, s: Status, now: real, recovered: bool, sendOk: bool, k: nat)
    requires Load(disk).restarts == s.restarts && Load(disk).recoveries == s.recoveries && Load(disk).pending == s.pending
    requires k <= |HealthyEffects(s, now, recovered, sendOk)|
    ensures var b := Balance(disk, HealthyEffects(s, now, recovered, sendOk)[..k]);
            b.restarts == 0 && b.owed >= -1 && (k == |HealthyEffects(s, now, recovered, sendOk)| ==> b.owed >= 0)
  {
    var all := HealthyEffects(s, now, recovered, sendOk);
    if k > 0 {
      var fine := Recovered(s, now, recovered);
      assert all[..k] == [Write(fine)] + FlushEffects(fine, sendOk)[..k - 1];
      BalanceOne(disk, Write(fine));
      BalanceConcat(disk, [Write(fine)], FlushEffects(fine, sendOk)[..k - 1]);
      FlushBalance(fine, sendOk, k - 1);
    }
  }

  /** Effects that write the same counters and send no notice balance to nothing. */
  predicate Neutral(effects: seq<Effect>, s: Status) {
    forall i | 0 <= i < |effects| ::
      match effects[i]
      case Write(t) => t.restarts == s.restarts && t.recoveries == s.recoveries && t.pending == s.pending
      case Alert(_, _) => true
      case Restart => false
      case Notice(_, _) => false
  }

  lemma {:induction false} NeutralBalance(disk: Disk, effects: seq<Effect>)
    requires Neutral(effects, Load(disk))
    ensures Balance(disk, effects) == Books(0, 0)
    ensures var t := Load(DiskAfter(disk, effects));
            t.restarts == Load(disk).restarts && t.recoveries == Load(disk).recoveries && t.pending == Load(disk).pending
    decreases |effects|
  {
    if effects != [] {
      NeutralBalance(disk, effects[..|effects| - 1]);
    }
  }

  lemma RecoveryBalance(cfg: Config, w: World, s: Status, k: nat)
    requires k <= |RecoveryEffects(cfg, w, s)|
    ensures var b := Balance(Some(s), RecoveryEffects(cfg, w, s)[..k]);
            b.restarts == 0 && b.owed >= -1 && (k == |RecoveryEffects(cfg, w, s)| ==> b.owed >= 0)
  {
    var taken := RecoveryEffects(cfg, w, s)[..k];
    var i := FirstUp(w.probes, 0, Attempts(cfg));
    if i < Attempts(cfg) && Healthy(w.probes(i)) {
      HealthyBalance(Some(s), s, w.later, true, w.sendOk, k);
    } else {
      NeutralBalance(Some(s), taken);
    }
  }

  /** An activation that runs to its end balances; one that dies may lose one command or repeat one notice. */
  lemma RunBalance(cfg: Config, tick: Tick, disk: Disk)
    ensures var b := Balance(disk, Taken(cfg, tick, Load(disk)));
            && 0 <= b.restarts <= One(tick.cut.Some?)
            && 0 <= b.owed + One(tick.cut.Some?)
  {
    var s, w := Load(disk), tick.world;
    var all := Effects(cfg, w, s);
    var tr := Taken(cfg, tick, s);
    var k := |tr|;
    assert tr == all[..k];
    if Healthy(w.first) {
      HealthyBalance(disk, s, w.start, s.mode == Unhealthy, w.sendOk, k);
    } else if !Restarts(cfg, w, s) {
      NeutralBalance(disk, tr);
    } else if k >= 2 {
      var made := Restarting(s, w);
      var rest := if w.restartOk then RecoveryEffects(cfg, w, made) else [];
      assert all == [Write(made), Restart] + rest;
      assert tr == [Write(made), Restart] + rest[..k - 2];
      if w.restartOk {
        RecoveryBalance(cfg, w, made, k - 2);
      }
      RestartBalance(disk, s, made, rest[..k - 2]);
    } else if k == 1 {
      assert tr == [Write(Restarting(s, w))];
      BalanceOne(disk, Write(Restarting(s, w)));
    }
  }

  /** A recorded and issued restart adds nothing to what follows it. */
  lemma RestartBalance(disk: Disk, s: Status, made: Status, rest: seq<Effect>)
    requires s == Load(disk) && made.restarts == s.restarts + 1 && made.recoveries == s.recoveries && made.pending == s.pending
    ensures Balance(disk, [Write(made), Restart] + rest) == Balance(Some(made), rest)
  {
    var first := [Write(made), Restart];
    assert [Write(made)][..0] == [] && first[..1] == [Write(made)];
    assert DiskAfter(disk, [Write(made)]) == Some(made) && DiskAfter(disk, first) == Some(made);
    BalanceTwo(disk, Write(made), Restart);
    BalanceConcat(disk, first, rest);
  }

  lemma {:induction false} HistoryBalance(cfg: Config, disk: Disk, ticks: seq<Tick>)
    ensures var b := Balance(disk, Trace(cfg, disk, ticks));
            0 <= b.restarts <= Crashes(ticks) && 0 <= b.owed + Crashes(ticks)
    decreases |ticks|
  {
    if ticks != [] {
      var n := |ticks| - 1;
      var before := Trace(cfg, disk, ticks[..n]);
      var there := DiskAfter(disk, before);
      HistoryBalance(cfg, disk, ticks[..n]);
      RunBalance(cfg, ticks[n], there);
      BalanceConcat(disk, before, Taken(cfg, ticks[n], Load(there)));
    }
  }

  /** One recorded time for each restart command. */
  lemma {:induction false} OneTimePerRestart(disk: Disk, trace: seq<Effect>)
    ensures |RestartTimes(disk, trace)| == Count(IsRestart, trace)
  {
    if trace != [] {
      OneTimePerRestart(disk, trace[..|trace| - 1]);
    }
  }

  /** Every issued restart was counted first; the count runs ahead by at most one per crash. */
  lemma RestartCountIsAhead(cfg: Config, disk: Disk, ticks: seq<Tick>)
    ensures var issued := Count(IsRestart, Trace(cfg, disk, ticks));
            issued <= Load(DiskAt(cfg, disk, ticks)).restarts - Load(disk).restarts <= issued + Crashes(ticks)
  {
    HistoryBalance(cfg, disk, ticks);
    BalanceIs(disk, Trace(cfg, disk, ticks));
  }

  /** Delivered notices plus the one pending never exceed recoveries plus the one pending at first, but for one repeat per crash. */
  lemma NoticesNeverExceedRecoveries(cfg: Config, disk: Disk, ticks: seq<Tick>)
    ensures var end := Load(DiskAt(cfg, disk, ticks));
            Count(Delivered, Trace(cfg, disk, ticks)) + One(end.pending)
            <= end.recoveries - Load(disk).recoveries + One(Load(disk).pending) + Crashes(ticks)
  {
    HistoryBalance(cfg, disk, ticks);
    BalanceIs(disk, Trace(cfg, disk, ticks));
  }

  // ---- Without crashes ----

  predicate NoCrash(ticks: seq<Tick>) {
    forall i | 0 <= i < |ticks| :: ticks[i].cut.None?
  }

  /** What each activation returned. */
  function Results(cfg: Config, disk: Disk, ticks: seq<Tick>): (r: seq<bool>)
    ensures |r| == |ticks|
  {
    if ticks == [] then []
    else
      var n := |ticks| - 1;
      Results(cfg, disk, ticks[..n]) + [Result(cfg, ticks[n].world, Load(DiskAt(cfg, disk, ticks[..n])))]
  }

  /** The failed activations since the last healthy one, on top of `earlier` ones. */
  function FailuresSince(earlier: int, results: seq<bool>): int {
    if results == [] then earlier
    else if results[|results| - 1] then 0
    else FailuresSince(earlier, results[..|results| - 1]) + 1
  }

  /** Activation `i` went from unhealthy to healthy: at its first look or since the activation before it. */
  predicate Recovers(wasUnhealthy: bool, ticks: seq<Tick>, results: seq<bool>, i: nat)
    requires i < |ticks| == |results|
  {
    results[i] && (!Healthy(ticks[i].world.first) || if i == 0 then wasUnhealthy else !results[i - 1])
  }

  function Recoveries(wasUnhealthy: bool, ticks: seq<Tick>, results: seq<bool>): nat
    requires |ticks| == |results|
  {
    if ticks == [] then 0
    else
      var n := |ticks| - 1;
      Recoveries(wasUnhealthy, ticks[..n], results[..n]) + One(Recovers(wasUnhealthy, ticks, results, n))
  }

  predicate RunRecovers(cfg: Config, w: World, s: Status) {
    Result(cfg, w, s) && (!Healthy(w.first) || s.mode == Unhealthy)
  }

  /** A delivered notice is among the effects. */
  predicate Noticed(effects: seq<Effect>) {
    exists i | 0 <= i < |effects| :: Delivered(effects[i])
  }

  predicate Counted(before: Status, after: Status, result: bool, recovers: bool, noticed: bool) {
    && after.failures == (if result then 0 else before.failures + 1)
    && after.mode == (if result then Fine else Unhealthy)
    && after.recoveries == before.recoveries + One(recovers)
    && after.pending == ((before.pending || recovers) && !noticed)
  }

  lemma EndsHealthy(disk: Disk, s: Status, now: real, recovered: bool, sendOk: bool)
    ensures var effects := HealthyEffects(s, now, recovered, sendOk);
            Counted(s, Load(DiskAfter(disk, effects)), true, recovered, Noticed(effects))
  {
    var effects := HealthyEffects(s, now, recovered, sendOk);
    var fine := Recovered(s, now, recovered);
    if fine.pending {
      assert effects[1] == Notice(fine.pendingFailures, sendOk);
      assert effects[..2][..1] == [Write(fine)];
      assert DiskAfter(disk, effects[..1]) == Some(fine);
      assert DiskAfter(disk, effects[..2]) == Some(fine);
      assert Delivered(effects[1]) == sendOk;
      assert effects[..2] == effects || sendOk;
    } else {
      assert effects == [Write(fine)];
    }
  }

  lemma EndsInIncident(disk: Disk, s: Status, problem: Problem, sendOk: bool)
    ensures var effects := IncidentEffects(s, problem, sendOk);
            && Load(DiskAfter(disk, effects)) == s.(alerted := if sendOk then Some(problem) else s.alerted)
            && !Noticed(effects)
  {
    var effects := IncidentEffects(s, problem, sendOk);
    assert DiskAfter(disk, [Write(s)]) == Some(s);
    if s.alerted == Some(problem) {
      assert effects == [Write(s)];
    } else if !sendOk {
      assert effects == [Write(s), Alert(problem, false)];
      assert effects[..1] == [Write(s)];
    } else {
      assert effects[|effects| - 1] == Write(s.(alerted := Some(problem)));
    }
  }

  lemma EndsRecovery(cfg: Config, w: World, disk: Disk, s: Status)
    requires s.mode == Unhealthy
    ensures var effects := RecoveryEffects(cfg, w, s);
            var k := FirstUp(w.probes, 0, Attempts(cfg));
            var up := k < Attempts(cfg) && Healthy(w.probes(k));
            var end := Load(DiskAfter(disk, effects));
            if up then Counted(s, end, true, true, Noticed(effects))
            else end.failures == s.failures && end.mode == Unhealthy && end.recoveries == s.recoveries && end.pending == s.pending && !Noticed(effects)
  {
    var k := FirstUp(w.probes, 0, Attempts(cfg));
    if k < Attempts(cfg) {
      if Healthy(w.probes(k)) {
        EndsHealthy(disk, s, w.later, true, w.sendOk);
      } else {
        EndsInIncident(disk, s.(checkedAt := Some(w.later), lastError := Some(FailedChecks(w.probes(k)))), FailedChecks(w.probes(k)), w.sendOk);
      }
    }
  }

  lemma RunIsCounted(cfg: Config, w: World, disk: Disk)
    ensures var s := Load(disk);
            var effects := Effects(cfg, w, s);
            Counted(s, Load(DiskAfter(disk, effects)), Result(cfg, w, s), RunRecovers(cfg, w, s), Noticed(effects))
  {
    var s := Load(disk);
    var effects := Effects(cfg, w, s);
    if Healthy(w.first) {
      EndsHealthy(disk, s, w.start, s.mode == Unhealthy, w.sendOk);
    } else if !RestartRequired(w.first) {
      EndsInIncident(disk, Failing(s, w), FailedChecks(w.first), w.sendOk);
    } else if !Restarts(cfg, w, s) {
      assert effects == [Write(Failing(s, w))];
    } else {
      RestartIsCounted(cfg, w, disk);
    }
  }

  lemma RestartIsCounted(cfg: Config, w: World, disk: Disk)
    requires Restarts(cfg, w, Load(disk))
    ensures var s := Load(disk);
            var effects := Effects(cfg, w, s);
            Counted(s, Load(DiskAfter(disk, effects)), Result(cfg, w, s), Result(cfg, w, s), Noticed(effects))
  {
    var s := Load(disk);
    var made := Restarting(s, w);
    var first := [Write(made), Restart];
    var rest := if w.restartOk then RecoveryEffects(cfg, w, made) else [];
    assert first[..1] == [Write(made)];
    assert DiskAfter(disk, first[..1]) == Some(made) && DiskAfter(disk, first) == Some(made);
    DiskAfterConcat(disk, first, rest);
    assert Noticed(first + rest) == Noticed(rest) by {
      if i :| 0 <= i < |rest| && Delivered(rest[i]) {
        assert Delivered((first + rest)[i + 2]);
      }
    }
    if w.restartOk {
      EndsRecovery(cfg, w, Some(made), made);
    }
  }

  lemma LastTick(cfg: Config, disk: Disk, ticks: seq<Tick>)
    requires NoCrash(ticks) && ticks != []
    ensures var n := |ticks| - 1;
            var there := DiskAt(cfg, disk, ticks[..n]);
            && Trace(cfg, disk, ticks) == Trace(cfg, disk, ticks[..n]) + Effects(cfg, ticks[n].world, Load(there))
            && DiskAt(cfg, disk, ticks) == DiskAfter(there, Effects(cfg, ticks[n].world, Load(there)))
  {
    var n := |ticks| - 1;
    var before := Trace(cfg, disk, ticks[..n]);
    DiskAfterConcat(disk, before, Effects(cfg, ticks[n].world, Load(DiskAfter(disk, before))));
  }

  predicate Exact(s: Status, end: Status, ticks: seq<Tick>, results: seq<bool>)
    requires |ticks| == |results|
  {
    && end.failures == FailuresSince(s.failures, results)
    && end.mode == (if ticks == [] then s.mode else if results[|ticks| - 1] then Fine else Unhealthy)
    && end.recoveries == s.recoveries + Recoveries(s.mode == Unhealthy, ticks, results)
  }

  lemma ExactStep(s: Status, before: Status, end: Status, ticks: seq<Tick>, results: seq<bool>, noticed: bool)
    requires |ticks| == |results| > 0
    requires Exact(s, before, ticks[..|ticks| - 1], results[..|ticks| - 1])
    requires var n := |ticks| - 1;
             Counted(before, end, results[n], results[n] && (!Healthy(ticks[n].world.first) || before.mode == Unhealthy), noticed)
    ensures Exact(s, end, ticks, results)
  {}

  lemma RecoversIs(cfg: Config, disk: Disk, ticks: seq<Tick>)
    requires ticks != []
    ensures var n := |ticks| - 1;
            var before, results := Load(DiskAt(cfg, disk, ticks[..n])), Results(cfg, disk, ticks);
            && results[..n] == Results(cfg, disk, ticks[..n])
            && results[n] == Result(cfg, ticks[n].world, before)
  {}

  /**
   * The counters mean what they say: `consecutive_failures` counts the failed activations since the last healthy
   * one, the mode is the last verdict, and `recovery_count` counts the recoveries.
   */
  lemma {:induction false} CountersAreExact(cfg: Config, disk: Disk, ticks: seq<Tick>)
    requires NoCrash(ticks)
    ensures Exact(Load(disk), Load(DiskAt(cfg, disk, ticks)), ticks, Results(cfg, disk, ticks))
    decreases |ticks|
  {
    if ticks != [] {
      var n := |ticks| - 1;
      var there := DiskAt(cfg, disk, ticks[..n]);
      var effects := Effects(cfg, ticks[n].world, Load(there));
      CountersAreExact(cfg, disk, ticks[..n]);
      LastTick(cfg, disk, ticks);
      RunIsCounted(cfg, ticks[n].world, there);
      RecoversIs(cfg, disk, ticks);
      ExactStep(Load(disk), Load(there), Load(DiskAfter(there, effects)), ticks, Results(cfg, disk, ticks), Noticed(effects));
    }
  }

  /** Which activations delivered a recovery notice. */
  function Told(cfg: Config, disk: Disk, ticks: seq<Tick>): (r: seq<bool>)
    ensures |r| == |ticks|
  {
    if ticks == [] then []
    else
      var n := |ticks| - 1;
      Told(cfg, disk, ticks[..n]) + [Noticed(Effects(cfg, ticks[n].world, Load(DiskAt(cfg, disk, ticks[..n]))))]
  }

  /** Which activations recovered. */
  function Recovering(wasUnhealthy: bool, ticks: seq<Tick>, results: seq<bool>): (r: seq<bool>)
    requires |ticks| == |results|
    ensures |r| == |ticks|
  {
    seq(|ticks|, i requires 0 <= i < |ticks| => Recovers(wasUnhealthy, ticks, results, i))
  }

  predicate Silent(told: seq<bool>, from: nat) {
    forall j | from <= j < |told| :: !told[j]
  }

  /** A notice is owed: some activation recovered, or one was owed at first, and nobody was told since. */
  predicate Owed(atFirst: bool, recovering: seq<bool>, told: seq<bool>) {
    || (atFirst && Silent(told, 0))
    || (exists i | 0 <= i < |recovering| :: recovering[i] && Silent(told, i))
  }

  lemma OwedStep(atFirst: bool, recovering: seq<bool>, told: seq<bool>)
    requires |recovering| == |told| > 0
    ensures var n := |told| - 1;
            Owed(atFirst, recovering, told) == ((Owed(atFirst, recovering[..n], told[..n]) || recovering[n]) && !told[n])
  {
    var n := |told| - 1;
    forall i | 0 <= i <= n ensures Silent(told, i) == (Silent(told[..n], i) && !told[n]) {
      assert Silent(told[..n], i) ==> forall j | i <= j < n :: !told[..n][j];
      if Silent(told, i) {
        assert forall j | i <= j < n :: !told[j];
      }
    }
    if i :| 0 <= i < n && recovering[..n][i] && Silent(told[..n], i) {
      assert recovering[i];
    }
    if i :| 0 <= i < |recovering| && recovering[i] && Silent(told, i) {
      assert i < n ==> recovering[..n][i];
    }
  }

  lemma RecoveringPrefix(wasUnhealthy: bool, ticks: seq<Tick>, results: seq<bool>)
    requires |ticks| == |results| > 0
    ensures var n := |ticks| - 1;
            Recovering(wasUnhealthy, ticks, results)[..n] == Recovering(wasUnhealthy, ticks[..n], results[..n])
  {}

  /** `notification_pending` is set exactly while a notice is owed. */
  lemma {:induction false} PendingMeansOwed(cfg: Config, disk: Disk, ticks: seq<Tick>)
    requires NoCrash(ticks)
    ensures Load(DiskAt(cfg, disk, ticks)).pending
            <==> Owed(Load(disk).pending, Recovering(Load(disk).mode == Unhealthy, ticks, Results(cfg, disk, ticks)), Told(cfg, disk, ticks))
    decreases |ticks|
  {
    if ticks != [] {
      var n := |ticks| - 1;
      var wasUnhealthy, results := Load(disk).mode == Unhealthy, Results(cfg, disk, ticks);
      PendingMeansOwed(cfg, disk, ticks[..n]);
      OwedStep(Load(disk).pending, Recovering(wasUnhealthy, ticks, results), Told(cfg, disk, ticks));
      RecoversIs(cfg, disk, ticks);
      RecoveringPrefix(wasUnhealthy, ticks, results);
      assert Told(cfg, disk, ticks)[..n] == Told(cfg, disk, ticks[..n]);
      LastTick(cfg, disk, ticks);
      RunIsCounted(cfg, ticks[n].world, DiskAt(cfg, disk, ticks[..n]));
      CountersAreExact(cfg, disk, ticks[..n]);
    }
  }

  /** An activation that finds this status sends a notice of so many failures, and of its own failed first look. */
  predicate SendsNotice(cfg: Config, w: World, s: Status, failures: int) {
    Notice(failures + One(!Healthy(w.first)), w.sendOk) in Effects(cfg, w, s)
  }

  lemma RecoverySendsNotice(cfg: Config, w: World, s: Status)
    requires RunRecovers(cfg, w, s)
    ensures SendsNotice(cfg, w, s, s.failures)
  {
    var effects := Effects(cfg, w, s);
    if Healthy(w.first) {
      assert effects[1] == Notice(s.failures, w.sendOk);
    } else {
      assert effects[3] == Notice(s.failures + 1, w.sendOk);
    }
  }

  lemma {:induction false} ResultsPrefix(cfg: Config, disk: Disk, ticks: seq<Tick>, n: nat)
    requires n <= |ticks|
    ensures Results(cfg, disk, ticks)[..n] == Results(cfg, disk, ticks[..n])
    ensures n < |ticks| ==> Results(cfg, disk, ticks)[n] == Result(cfg, ticks[n].world, Load(DiskAt(cfg, disk, ticks[..n])))
    decreases |ticks|
  {
    if n < |ticks| {
      var front := ticks[..|ticks| - 1];
      ResultsPrefix(cfg, disk, front, n);
      assert front[..n] == ticks[..n];
    } else {
      assert ticks[..n] == ticks;
    }
  }

  /** What the results say about a recovery is what the status file says. */
  lemma RecoversOnFile(cfg: Config, first: Status, before: Status, ticks: seq<Tick>, results: seq<bool>, n: nat)
    requires n < |ticks| == |results| && Exact(first, before, ticks[..n], results[..n])
    requires results[n] == Result(cfg, ticks[n].world, before) && Recovers(first.mode == Unhealthy, ticks, results, n)
    ensures SendsNotice(cfg, ticks[n].world, before, FailuresSince(first.failures, results[..n]))
  {
    assert n > 0 ==> results[..n][n - 1] == results[n - 1];
    RecoverySendsNotice(cfg, ticks[n].world, before);
  }

  /**
   * In a history without crashes, the activation that recovers sends a notice, and the notice states how many
   * activations failed since the last healthy one, the recovering one included if its first look failed.
   */
  lemma NoticeStatesTheFailures(cfg: Config, disk: Disk, ticks: seq<Tick>, n: nat)
    requires NoCrash(ticks) && n < |ticks| && Recovers(Load(disk).mode == Unhealthy, ticks, Results(cfg, disk, ticks), n)
    ensures SendsNotice(cfg, ticks[n].world, Load(DiskAt(cfg, disk, ticks[..n])),
                        FailuresSince(Load(disk).failures, Results(cfg, disk, ticks)[..n]))
  {
    var before, results := Load(DiskAt(cfg, disk, ticks[..n])), Results(cfg, disk, ticks);
    CountersAreExact(cfg, disk, ticks[..n]);
    ResultsPrefix(cfg, disk, ticks, n);
    RecoversOnFile(cfg, Load(disk), before, ticks, results, n);
  }

  // ---- Alerts ----

  /** The alert in force: the last one delivered since the last healthy write. */
  function AlertInForce(earlier: Option<Problem>, effects: seq<Effect>): Option<Problem> {
    if effects == [] then earlier
    else
      var last := effects[|effects| - 1];
      if last.Alert? && last.delivered then Some(last.problem)
      else if last.Write? && last.status.mode == Fine then None
      else AlertInForce(earlier, effects[..|effects| - 1])
  }

  /** No alert is delivered while the same one is in force. */
  predicate NoRepeats(earlier: Option<Problem>, effects: seq<Effect>) {
    forall j | 0 <= j < |effects| ::
      effects[j].Alert? && effects[j].delivered ==> AlertInForce(earlier, effects[..j]) != Some(effects[j].problem)
  }

  lemma {:induction false} InForceConcat(earlier: Option<Problem>, a: seq<Effect>, b: seq<Effect>)
    ensures AlertInForce(earlier, a + b) == AlertInForce(AlertInForce(earlier, a), b)
    decreases |b|
  {
    if b == [] {
      assert a + b == a;
    } else {
      assert (a + b)[..|a + b| - 1] == a + b[..|b| - 1];
      InForceConcat(earlier, a, b[..|b| - 1]);
    }
  }

  lemma NoRepeatsConcat(earlier: Option<Problem>, a: seq<Effect>, b: seq<Effect>)
    requires NoRepeats(earlier, a) && NoRepeats(AlertInForce(earlier, a), b)
    ensures NoRepeats(earlier, a + b)
  {
    forall j | 0 <= j < |a + b| && (a + b)[j].Alert? && (a + b)[j].delivered
      ensures AlertInForce(earlier, (a + b)[..j]) != Some((a + b)[j].problem)
    {
      if j < |a| {
        assert (a + b)[..j] == a[..j];
      } else {
        assert (a + b)[..j] == a + b[..j - |a|];
        InForceConcat(earlier, a, b[..j - |a|]);
      }
    }
  }

  /** One activation, begun with the alert in force on file, repeats none and leaves the one in force on file. */
  ghost predicate AlertsInOrder(s: Status, disk: Disk, effects: seq<Effect>) {
    NoRepeats(s.alerted, effects) && AlertInForce(s.alerted, effects) == Load(DiskAfter(disk, effects)).alerted
  }

  lemma HealthyAlerts(disk: Disk, s: Status, now: real, recovered: bool, sendOk: bool)
    ensures AlertsInOrder(s, disk, HealthyEffects(s, now, recovered, sendOk))
  {
    var fine := Recovered(s, now, recovered);
    var effects := HealthyEffects(s, now, recovered, sendOk);
    assert AlertInForce(s.alerted, [Write(fine)]) == None;
    assert DiskAfter(disk, [Write(fine)]) == Some(fine);
    if fine.pending {
      assert effects[..2][..1] == [Write(fine)];
      assert effects[..2] == [Write(fine), effects[1]];
      assert effects == effects[..2] || sendOk;
    } else {
      assert effects == [Write(fine)];
    }
  }

  lemma IncidentAlerts(disk: Disk, s: Status, problem: Problem, sendOk: bool)
    requires s.mode == Unhealthy
    ensures AlertsInOrder(s, disk, IncidentEffects(s, problem, sendOk))
  {
    var effects := IncidentEffects(s, problem, sendOk);
    EndsInIncident(disk, s, problem, sendOk);
    assert [Write(s)][..0] == [];
    assert AlertInForce(s.alerted, [Write(s)]) == s.alerted;
    if s.alerted == Some(problem) {
      assert effects == [Write(s)];
    } else {
      assert effects[..1] == [Write(s)];
      assert effects[..2][..1] == [Write(s)] && effects[1] == Alert(problem, sendOk);
      if sendOk {
        assert effects[|effects| - 1].status.mode == Unhealthy;
        assert AlertInForce(s.alerted, effects[..2]) == Some(problem);
        assert effects[..|effects| - 1] == effects[..2];
      } else {
        assert effects == effects[..2];
      }
    }
  }

  lemma RecoveryAlerts(cfg: Config, w: World, s: Status)
    requires s.mode == Unhealthy
    ensures AlertsInOrder(s, Some(s), RecoveryEffects(cfg, w, s))
  {
    var k := FirstUp(w.probes, 0, Attempts(cfg));
    if k == Attempts(cfg) {
      var late := s.(checkedAt := Some(w.later), lastError := Some(StillFailing));
      assert [Write(late)][..0] == [];
    } else if Healthy(w.probes(k)) {
      HealthyAlerts(Some(s), s, w.later, true, w.sendOk);
    } else {
      var late := s.(checkedAt := Some(w.later), lastError := Some(FailedChecks(w.probes(k))));
      IncidentAlerts(Some(s), late, FailedChecks(w.probes(k)), w.sendOk);
    }
  }

  lemma RunAlerts(cfg: Config, w: World, disk: Disk)
    ensures AlertsInOrder(Load(disk), disk, Effects(cfg, w, Load(disk)))
  {
    var s := Load(disk);
    if Healthy(w.first) {
      HealthyAlerts(disk, s, w.start, s.mode == Unhealthy, w.sendOk);
    } else if !RestartRequired(w.first) {
      IncidentAlerts(disk, Failing(s, w), FailedChecks(w.first), w.sendOk);
    } else if !Restarts(cfg, w, s) {
      assert [Write(Failing(s, w))][..0] == [];
    } else {
      var made := Restarting(s, w);
      var first := [Write(made), Restart];
      var rest := if w.restartOk then RecoveryEffects(cfg, w, made) else [];
      assert first[..1] == [Write(made)] && [Write(made)][..0] == [];
      assert DiskAfter(disk, first[..1]) == Some(made) && DiskAfter(disk, first) == Some(made);
      assert AlertInForce(s.alerted, first[..1]) == s.alerted;
      DiskAfterConcat(disk, first, rest);
      InForceConcat(s.alerted, first, rest);
      RecoveryAlerts(cfg, w, made);
      NoRepeatsConcat(s.alerted, first, rest);
    }
  }

  lemma {:induction false} HistoryAlerts(cfg: Config, disk: Disk, ticks: seq<Tick>)
    requires NoCrash(ticks)
    ensures AlertsInOrder(Load(disk), disk, Trace(cfg, disk, ticks))
    decreases |ticks|
  {
    if ticks != [] {
      var n := |ticks| - 1;
      var before := Trace(cfg, disk, ticks[..n]);
      var there := DiskAfter(disk, before);
      var now := Effects(cfg, ticks[n].world, Load(there));
      HistoryAlerts(cfg, disk, ticks[..n]);
      LastTick(cfg, disk, ticks);
      RunAlerts(cfg, ticks[n].world, there);
      InForceConcat(Load(disk).alerted, before, now);
      NoRepeatsConcat(Load(disk).alerted, before, now);
    }
  }

  /** The effect that ends an alert's force: a healthy write or a different delivered alert. */
  predicate Ends(e: Effect, problem: Problem) {
    (e.Write? && e.status.mode == Fine) || (e.Alert? && e.delivered && e.problem != problem)
  }

  lemma {:induction false} InForceUntilEnded(earlier: Option<Problem>, effects: seq<Effect>, i: nat, j: nat, problem: Problem)
    requires i < j <= |effects| && effects[i] == Alert(problem, true)
    requires forall k | i < k < j :: !Ends(effects[k], problem)
    ensures AlertInForce(earlier, effects[..j]) == Some(problem)
    decreases j
  {
    assert effects[..j][..j - 1] == effects[..j - 1];
    if j > i + 1 {
      InForceUntilEnded(earlier, effects, i, j - 1, problem);
    }
  }

  /** The one problem alerts are about: a gateway that runs and listens but reports an unhealthy state. */
  predicate AlertsOnlyAbout(effects: seq<Effect>, problem: Problem) {
    forall k | 0 <= k < |effects| && effects[k].Alert? :: effects[k].problem == problem
  }

  const ALERTED := FailedChecks(Health(true, true, false))

  lemma RunAlertsOnlyAbout(cfg: Config, w: World, s: Status)
    ensures AlertsOnlyAbout(Effects(cfg, w, s), ALERTED)
  {
  }

  lemma AlertsOnlyConcat(a: seq<Effect>, b: seq<Effect>, problem: Problem)
    requires AlertsOnlyAbout(a, problem) && AlertsOnlyAbout(b, problem)
    ensures AlertsOnlyAbout(a + b, problem)
  {
  }

  lemma {:induction false} TraceAlertsOnlyAbout(cfg: Config, disk: Disk, ticks: seq<Tick>)
    requires NoCrash(ticks)
    ensures AlertsOnlyAbout(Trace(cfg, disk, ticks), ALERTED)
    decreases |ticks|
  {
    if ticks != [] {
      var n := |ticks| - 1;
      var there := DiskAt(cfg, disk, ticks[..n]);
      TraceAlertsOnlyAbout(cfg, disk, ticks[..n]);
      LastTick(cfg, disk, ticks);
      RunAlertsOnlyAbout(cfg, ticks[n].world, Load(there));
      AlertsOnlyConcat(Trace(cfg, disk, ticks[..n]), Effects(cfg, ticks[n].world, Load(there)), ALERTED);
    }
  }

  /** Between any two delivered alerts there is a healthy check. */
  lemma AlertsAreSeparatedByHealth(cfg: Config, disk: Disk, ticks: seq<Tick>, i: nat, j: nat)
    requires NoCrash(ticks)
    requires var trace := Trace(cfg, disk, ticks);
             i < j < |trace| && trace[i].Alert? && trace[i].delivered && trace[j].Alert? && trace[j].delivered
    ensures var trace := Trace(cfg, disk, ticks);
            exists k | i < k < j :: trace[k].Write? && trace[k].status.mode == Fine
  {
    var trace := Trace(cfg, disk, ticks);
    HistoryAlerts(cfg, disk, ticks);
    TraceAlertsOnlyAbout(cfg, disk, ticks);
    if forall k | i < k < j :: !(trace[k].Write? && trace[k].status.mode == Fine) {
      assert forall k | i < k < j :: !Ends(trace[k], ALERTED);
      InForceUntilEnded(Load(disk).alerted, trace, i, j, ALERTED);
    }
  }

  /** A healthy write marks an activation that returned True, and only such a one. */
  lemma HealthyWritesMarkSuccess(cfg: Config, w: World, s: Status)
    ensures (exists k | 0 <= k < |Effects(cfg, w, s)| :: Effects(cfg, w, s)[k].Write? && Effects(cfg, w, s)[k].status.mode == Fine)
            <==> Result(cfg, w, s)
  {
    var effects := Effects(cfg, w, s);
    if Result(cfg, w, s) {
      if Healthy(w.first) {
        assert effects[0].Write? && effects[0].status.mode == Fine;
      } else {
        assert effects[2].Write? && effects[2].status.mode == Fine;
      }
    } else {
      forall k | 0 <= k < |effects| && effects[k].Write? ensures effects[k].status.mode == Unhealthy {
      }
    }
  }
}
