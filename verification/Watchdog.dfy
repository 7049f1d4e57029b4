/**
 * The gateway watchdog (scripts/cc_connect_watchdog.py). One activation reads the persisted status, looks at
 * the gateway, and leaves an ordered list of effects behind: writes of the status file, the restart command,
 * alerts and recovery notices. A crash leaves a prefix of that list.
 */
module Watchdog {
  import opened Options

  datatype Config = Config(cooldown: int, recoveryTimeout: int)

  datatype Health = Health(daemon: bool, socket: bool, cron: bool)

  predicate Healthy(h: Health) { h.daemon && h.socket && h.cron }

  predicate RestartRequired(h: Health) { !h.daemon || !h.socket }

  /** The error texts; a failed report names exactly its failed checks. */
  datatype Problem = FailedChecks(report: Health) | StillFailing

  datatype Mode = Unknown | Fine | Unhealthy

  datatype Status = Status(
    mode: Mode, checkedAt: Option<real>, lastHealthyAt: Option<real>, lastRestartAt: Option<real>, lastRecoveryAt: Option<real>,
    failures: int, restarts: int, recoveries: int, pending: bool, pendingFailures: int,
    alerted: Option<Problem>, lastError: Option<Problem>)

  const DEFAULT := Status(Unknown, None, None, None, None, 0, 0, 0, false, 0, None, None)

  /** The status file; missing before the first write. */
  type Disk = Option<Status>

  function Load(disk: Disk): Status {
    if disk.Some? then disk.value else DEFAULT
  }

  datatype Effect = Write(status: Status) | Restart | Alert(problem: Problem, delivered: bool) | Notice(failures: int, delivered: bool)

  /** What the outside answers during one activation: both clock readings, every health report, the restart, the one message. */
  datatype World = World(start: real, first: Health, restartOk: bool, probes: nat -> Health, later: real, sendOk: bool)

  function Attempts(cfg: Config): (n: nat)
    ensures n >= 1
  {
    if cfg.recoveryTimeout / 2 < 1 then 1 else cfg.recoveryTimeout / 2
  }

  // One activation, as a value

  function Recovered(s: Status, now: real, recovered: bool): Status {
    var fine := s.(mode := Fine, checkedAt := Some(now), lastHealthyAt := Some(now), failures := 0, alerted := None, lastError := None);
    if recovered
    then fine.(lastRecoveryAt := Some(now), recoveries := s.recoveries + 1, pending := true, pendingFailures := s.failures)
    else fine
  }

  function FlushEffects(s: Status, sendOk: bool): seq<Effect> {
    if !s.pending then []
    else [Notice(s.pendingFailures, sendOk)] + if sendOk then [Write(s.(pending := false, pendingFailures := 0))] else []
  }

  function HealthyEffects(s: Status, now: real, recovered: bool, sendOk: bool): seq<Effect> {
    [Write(Recovered(s, now, recovered))] + FlushEffects(Recovered(s, now, recovered), sendOk)
  }

  function IncidentEffects(s: Status, problem: Problem, sendOk: bool): seq<Effect> {
    [Write(s)]
    + if s.alerted == Some(problem) then []
      else [Alert(problem, sendOk)] + if sendOk then [Write(s.(alerted := Some(problem)))] else []
  }

  function Failing(s: Status, w: World): Status {
    s.(mode := Unhealthy, checkedAt := Some(w.start), failures := s.failures + 1, lastError := Some(FailedChecks(w.first)))
  }

  predicate InCooldown(cfg: Config, s: Status, now: real) {
    s.lastRestartAt.Some? && 0.0 <= now - s.lastRestartAt.value < cfg.cooldown as real
  }

  predicate Restarts(cfg: Config, w: World, s: Status) {
    RestartRequired(w.first) && !InCooldown(cfg, s, w.start)
  }

  function Restarting(s: Status, w: World): Status {
    Failing(s, w).(lastRestartAt := Some(w.start), restarts := s.restarts + 1)
  }

  /** The first probe from `i` on that shows a running daemon and socket, or `n`. */
  function FirstUp(probes: nat -> Health, i: nat, n: nat): (k: nat)
    requires i <= n
    ensures i <= k <= n
    ensures forall j | i <= j < k :: RestartRequired(probes(j))
    ensures k < n ==> !RestartRequired(probes(k))
    decreases n - i
  {
    if i == n || !RestartRequired(probes(i)) then i else FirstUp(probes, i + 1, n)
  }

  function RecoveryEffects(cfg: Config, w: World, s: Status): seq<Effect> {
    var k := FirstUp(w.probes, 0, Attempts(cfg));
    if k == Attempts(cfg) then [Write(s.(checkedAt := Some(w.later), lastError := Some(StillFailing)))]
    else if Healthy(w.probes(k)) then HealthyEffects(s, w.later, true, w.sendOk)
    else IncidentEffects(s.(checkedAt := Some(w.later), lastError := Some(FailedChecks(w.probes(k)))), FailedChecks(w.probes(k)), w.sendOk)
  }

  function Effects(cfg: Config, w: World, s: Status): seq<Effect> {
    if Healthy(w.first) then HealthyEffects(s, w.start, s.mode == Unhealthy, w.sendOk)
    else if !RestartRequired(w.first) then IncidentEffects(Failing(s, w), FailedChecks(w.first), w.sendOk)
    else if !Restarts(cfg, w, s) then [Write(Failing(s, w))]
    else [Write(Restarting(s, w)), Restart] + if w.restartOk then RecoveryEffects(cfg, w, Restarting(s, w)) else []
  }

  /** The value `run_once` returns: did the last report it looked at show a healthy gateway. */
  predicate Result(cfg: Config, w: World, s: Status) {
    Healthy(w.first)
    || (Restarts(cfg, w, s) && w.restartOk
        && var k := FirstUp(w.probes, 0, Attempts(cfg)); k < Attempts(cfg) && Healthy(w.probes(k)))
  }

  function DiskAfter(disk: Disk, effects: seq<Effect>): Disk {
    if effects == [] then disk
    else
      var last := effects[|effects| - 1];
      if last.Write? then Some(last.status) else DiskAfter(disk, effects[..|effects| - 1])
  }

  // One activation, as the program

  class Process {
    const cfg: Config
    var disk: Disk
    var state: Status
    var effects: seq<Effect>

    constructor (cfg: Config, disk: Disk)
      ensures this.cfg == cfg && this.disk == disk && effects == []
    {
      this.cfg := cfg;
      this.disk := disk;
      state := DEFAULT;
      effects := [];
    }

    method WriteState()
      modifies this
      ensures state == old(state) && disk == Some(state) && effects == old(effects) + [Write(state)]
    {
      disk := Some(state);
      effects := effects + [Write(state)];
    }

    method NotifyRecovery(failures: int, sendOk: bool) returns (delivered: bool)
      modifies this`effects
      ensures delivered == sendOk && effects == old(effects) + [Notice(failures, sendOk)]
    {
      effects := effects + [Notice(failures, sendOk)];
      delivered := sendOk;
    }

    method NotifyAlert(problem: Problem, sendOk: bool) returns (delivered: bool)
      modifies this`effects
      ensures delivered == sendOk && effects == old(effects) + [Alert(problem, sendOk)]
    {
      effects := effects + [Alert(problem, sendOk)];
      delivered := sendOk;
    }

    /** Called once the incident's status is on disk. */
    method NotifyIncident(problem: Problem, sendOk: bool)
      requires disk == Some(state)
      modifies this
      ensures |effects| >= |old(effects)| && effects[..|old(effects)|] == old(effects)
      ensures [Write(old(state))] + effects[|old(effects)|..] == IncidentEffects(old(state), problem, sendOk)
      ensures disk == DiskAfter(old(disk), effects[|old(effects)|..])
    {
      if state.alerted == Some(problem) {
        assert effects[|old(effects)|..] == [];
        return;
      }
      var delivered := NotifyAlert(problem, sendOk);
      if !delivered {
        assert effects[|old(effects)|..] == [Alert(problem, false)];
        return;
      }
      state := state.(alerted := Some(problem));
      WriteState();
      assert effects[|old(effects)|..] == [Alert(problem, true), Write(state)];
    }

    method FlushRecovery(sendOk: bool)
      requires disk == Some(state)
      modifies this
      ensures |effects| >= |old(effects)| && effects[..|old(effects)|] == old(effects)
      ensures effects[|old(effects)|..] == FlushEffects(old(state), sendOk)
      ensures disk == DiskAfter(old(disk), effects[|old(effects)|..])
    {
      if !state.pending {
        return;
      }
      var delivered := NotifyRecovery(state.pendingFailures, sendOk);
      if !delivered {
        assert effects[|old(effects)|..] == [Notice(state.pendingFailures, false)];
        return;
      }
      ghost var was := state.pendingFailures;
      state := state.(pending := false, pendingFailures := 0);
      WriteState();
      assert effects[|old(effects)|..] == [Notice(was, true), Write(state)];
    }

    method PersistHealthy(now: real, recovered: bool)
      modifies this
      ensures state == Recovered(old(state), now, recovered)
      ensures disk == Some(state) && effects == old(effects) + [Write(state)]
    {
      var failures := state.failures;
      state := state.(mode := Fine, checkedAt := Some(now), lastHealthyAt := Some(now), failures := 0, alerted := None, lastError := None);
      if recovered {
        state := state.(lastRecoveryAt := Some(now), recoveries := state.recoveries + 1, pending := true, pendingFailures := failures);
      }
      WriteState();
    }

    method CloseHealthy(now: real, recovered: bool, sendOk: bool)
      modifies this
      ensures effects == old(effects) + HealthyEffects(old(state), now, recovered, sendOk)
      ensures disk == DiskAfter(old(disk), HealthyEffects(old(state), now, recovered, sendOk))
    {
      PersistHealthy(now, recovered);
      ghost var first := [Write(state)];
      ghost var middle, onDisk := effects, disk;
      FlushRecovery(sendOk);
      ghost var rest := effects[|middle|..];
      assert effects == middle + rest;
      DiskAfterConcat(old(disk), first, rest);
    }

    method CloseIncident(problem: Problem, sendOk: bool)
      modifies this
      ensures effects == old(effects) + IncidentEffects(old(state), problem, sendOk)
      ensures disk == DiskAfter(old(disk), IncidentEffects(old(state), problem, sendOk))
    {
      WriteState();
      ghost var first := [Write(state)];
      ghost var middle := effects;
      NotifyIncident(problem, sendOk);
      ghost var rest := effects[|middle|..];
      assert effects == middle + rest;
      DiskAfterConcat(old(disk), first, rest);
    }

    method AwaitRecovery(w: World) returns (healthy: bool)
      modifies this
      ensures effects == old(effects) + RecoveryEffects(cfg, w, old(state))
      ensures disk == DiskAfter(old(disk), RecoveryEffects(cfg, w, old(state)))
      ensures healthy == (FirstUp(w.probes, 0, Attempts(cfg)) < Attempts(cfg) && Healthy(w.probes(FirstUp(w.probes, 0, Attempts(cfg)))))
    {
      var attempts := Attempts(cfg);
      for attempt := 0 to attempts
        invariant disk == old(disk) && state == old(state) && effects == old(effects)
        invariant FirstUp(w.probes, 0, attempts) == FirstUp(w.probes, attempt, attempts)
      {
        var report := w.probes(attempt);
        if Healthy(report) {
          CloseHealthy(w.later, true, w.sendOk);
          return true;
        }
        if !RestartRequired(report) {
          state := state.(checkedAt := Some(w.later), lastError := Some(FailedChecks(report)));
          CloseIncident(FailedChecks(report), w.sendOk);
          return false;
        }
      }
      state := state.(checkedAt := Some(w.later), lastError := Some(StillFailing));
      WriteState();
      healthy := false;
    }

    method RunOnce(w: World) returns (healthy: bool)
      modifies this
      ensures effects == old(effects) + Effects(cfg, w, Load(old(disk)))
      ensures disk == DiskAfter(old(disk), Effects(cfg, w, Load(old(disk))))
      ensures healthy == Result(cfg, w, Load(old(disk)))
    {
      state := Load(disk);
      if Healthy(w.first) {
        CloseHealthy(w.start, state.mode == Unhealthy, w.sendOk);
        return true;
      }
      state := state.(mode := Unhealthy, checkedAt := Some(w.start), failures := state.failures + 1, lastError := Some(FailedChecks(w.first)));
      if !RestartRequired(w.first) {
        CloseIncident(FailedChecks(w.first), w.sendOk);
        return false;
      }
      if state.lastRestartAt.Some? && 0.0 <= w.start - state.lastRestartAt.value < cfg.cooldown as real {
        WriteState();
        return false;
      }
      healthy := RestartGateway(w);
    }

    method RestartGateway(w: World) returns (healthy: bool)
      modifies this
      ensures var s := old(state).(lastRestartAt := Some(w.start), restarts := old(state).restarts + 1);
              var todo := [Write(s), Restart] + if w.restartOk then RecoveryEffects(cfg, w, s) else [];
              effects == old(effects) + todo && disk == DiskAfter(old(disk), todo)
      ensures var k := FirstUp(w.probes, 0, Attempts(cfg));
              healthy == (w.restartOk && k < Attempts(cfg) && Healthy(w.probes(k)))
    {
      state := state.(lastRestartAt := Some(w.start), restarts := state.restarts + 1);
      WriteState();
      effects := effects + [Restart];
      ghost var first := [Write(state), Restart];
      assert DiskAfter(old(disk), first[..1]) == Some(state);
      assert disk == DiskAfter(old(disk), first);
      assert effects == old(effects) + first;
      if !w.restartOk {
        return false;
      }
      DiskAfterConcat(old(disk), first, RecoveryEffects(cfg, w, state));
      healthy := AwaitRecovery(w);
    }
  }

  lemma {:induction false} DiskAfterConcat(disk: Disk, a: seq<Effect>, b: seq<Effect>)
    ensures DiskAfter(disk, a + b) == DiskAfter(DiskAfter(disk, a), b)
    decreases |b|
  {
    if b == [] {
      assert a + b == a;
    } else {
      assert (a + b)[..|a + b| - 1] == a + b[..|b| - 1];
      DiskAfterConcat(disk, a, b[..|b| - 1]);
    }
  }
}
