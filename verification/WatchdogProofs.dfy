/** What the watchdog guarantees over whole histories of activations. */
module WatchdogProofs {
  import opened Watchdog
  import opened Options

  /** An activation that ran to its end (`cut.None?`) or died after its first `cut.value` effects. */
  datatype Tick = Tick(world: World, cut: Option<nat>)

  function Taken(cfg: Config, tick: Tick, s: Status): seq<Effect> {
    var all := Effects(cfg, tick.world, s);
    if tick.cut.Some? && tick.cut.value < |all| then all[..tick.cut.value] else all
  }

  /** Everything that happened, in order, starting from `disk`. */
  function Trace(cfg: Config, disk: Disk, ticks: seq<Tick>): seq<Effect> {
    if ticks == [] then []
    else
      var before := Trace(cfg, disk, ticks[..|ticks| - 1]);
      before + Taken(cfg, ticks[|ticks| - 1], Load(DiskAfter(disk, before)))
  }

  function DiskAt(cfg: Config, disk: Disk, ticks: seq<Tick>): Disk {
    DiskAfter(disk, Trace(cfg, disk, ticks))
  }

  /** The time on record at each restart command, in order. */
  function RestartTimes(disk: Disk, trace: seq<Effect>): seq<Option<real>> {
    if trace == [] then []
    else
      var front := trace[..|trace| - 1];
      RestartTimes(disk, front) + if trace[|trace| - 1].Restart? then [Load(DiskAfter(disk, front)).lastRestartAt] else []
  }

  predicate ClockForward(ticks: seq<Tick>) {
    forall i, j | 0 <= i <= j < |ticks| :: ticks[i].world.start <= ticks[j].world.start
  }

  // ---- Restarts are a cooldown apart ----

  lemma {:induction false} TimesConcat(disk: Disk, a: seq<Effect>, b: seq<Effect>)
    ensures RestartTimes(disk, a + b) == RestartTimes(disk, a) + RestartTimes(DiskAfter(disk, a), b)
    decreases |b|
  {
    if b == [] {
      assert a + b == a;
    } else {
      var front := b[..|b| - 1];
      assert (a + b)[..|a + b| - 1] == a + front;
      TimesConcat(disk, a, front);
      DiskAfterConcat(disk, a, front);
    }
  }

  /** No restart, and every write keeps the restart record. */
  predicate Quiet(effects: seq<Effect>, record: Option<real>) {
    forall i | 0 <= i < |effects| :: !effects[i].Restart? && (effects[i].Write? ==> effects[i].status.lastRestartAt == record)
  }

  lemma {:induction false} QuietKeeps(disk: Disk, effects: seq<Effect>, record: Option<real>)
    requires Quiet(effects, record) && Load(disk).lastRestartAt == record
    ensures RestartTimes(disk, effects) == []
    ensures Load(DiskAfter(disk, effects)).lastRestartAt == record
    decreases |effects|
  {
    if effects != [] {
      QuietKeeps(disk, effects[..|effects| - 1], record);
    }
  }

  lemma RecoveryIsQuiet(cfg: Config, w: World, s: Status)
    ensures Quiet(RecoveryEffects(cfg, w, s), s.lastRestartAt)
  {}

  lemma NoRestartIsQuiet(cfg: Config, w: World, s: Status)
    requires !Restarts(cfg, w, s)
    ensures Quiet(Effects(cfg, w, s), s.lastRestartAt)
  {}

  lemma RestartPrefix(disk: Disk, s: Status, rest: seq<Effect>)
    requires Quiet(rest, s.lastRestartAt)
    ensures RestartTimes(disk, [Write(s), Restart] + rest) == [s.lastRestartAt]
    ensures Load(DiskAfter(disk, [Write(s), Restart] + rest)).lastRestartAt == s.lastRestartAt
  {
    var first := [Write(s), Restart];
    assert first[..1] == [Write(s)] && [Write(s)][..0] == [];
    assert DiskAfter(disk, first[..1]) == Some(s);
    assert RestartTimes(disk, first[..1]) == [];
    assert RestartTimes(disk, first) == [s.lastRestartAt] && DiskAfter(disk, first) == Some(s);
    TimesConcat(disk, first, rest);
    DiskAfterConcat(disk, first, rest);
    QuietKeeps(Some(s), rest, s.lastRestartAt);
  }

  /** One activation, wherever it dies, records its start before it restarts, and touches the record for nothing else. */
  lemma RunRestartsAfterRecording(cfg: Config, tick: Tick, disk: Disk)
    ensures var s := Load(disk);
            var tr := Taken(cfg, tick, s);
            var now := Some(tick.world.start);
            && (RestartTimes(disk, tr) == []
                || (RestartTimes(disk, tr) == [now] && Restarts(cfg, tick.world, s) && Load(DiskAfter(disk, tr)).lastRestartAt == now))
            && (Load(DiskAfter(disk, tr)).lastRestartAt == s.lastRestartAt
                || (Load(DiskAfter(disk, tr)).lastRestartAt == now && Restarts(cfg, tick.world, s)))
  {
    var s, w := Load(disk), tick.world;
    var tr := Taken(cfg, tick, s);
    if !Restarts(cfg, w, s) {
      NoRestartIsQuiet(cfg, w, s);
      QuietKeeps(disk, tr, s.lastRestartAt);
    } else {
      var made := Restarting(s, w);
      RecoveryIsQuiet(cfg, w, made);
      if |tr| >= 2 {
        var rest := if w.restartOk then RecoveryEffects(cfg, w, made) else [];
        assert Effects(cfg, w, s) == [Write(made), Restart] + rest;
        assert tr == [Write(made), Restart] + rest[..|tr| - 2];
        RestartPrefix(disk, made, rest[..|tr| - 2]);
      } else if |tr| == 1 {
        assert tr == [Write(made)] && tr[..0] == [];
        assert RestartTimes(disk, tr[..0]) == [];
      }
    }
  }

  lemma TraceTimes(cfg: Config, disk: Disk, ticks: seq<Tick>)
    requires ticks != []
    ensures var n := |ticks| - 1;
            var there := DiskAt(cfg, disk, ticks[..n]);
            && RestartTimes(disk, Trace(cfg, disk, ticks))
               == RestartTimes(disk, Trace(cfg, disk, ticks[..n])) + RestartTimes(there, Taken(cfg, ticks[n], Load(there)))
            && DiskAt(cfg, disk, ticks) == DiskAfter(there, Taken(cfg, ticks[n], Load(there)))
  {
    var before := Trace(cfg, disk, ticks[..|ticks| - 1]);
    var there := DiskAfter(disk, before);
    var taken := Taken(cfg, ticks[|ticks| - 1], Load(there));
    TimesConcat(disk, before, taken);
    DiskAfterConcat(disk, before, taken);
  }

  /** All times are on record and pairwise at least `gap` apart. */
  predicate Apart(times: seq<Option<real>>, gap: real) {
    && (forall i | 0 <= i < |times| :: times[i].Some?)
    && (forall i, j | 0 <= i < j < |times| :: times[j].value - times[i].value >= gap)
  }

  predicate Within(times: seq<Option<real>>, from: real, to: real) {
    forall i | 0 <= i < |times| :: times[i].Some? && from <= times[i].value <= to
  }

  /** What holds of the times so far, the record on disk and the clock. */
  ghost predicate Spaced(times: seq<Option<real>>, record: Option<real>, cooldown: real, now: real) {
    && (forall i | 0 <= i < |times| :: times[i].Some? && record.Some? && times[i].value <= record.value)
    && (|times| > 0 ==> record.Some? && record.value <= now)
    && Apart(times, cooldown)
  }

  lemma SpacedStep(times: seq<Option<real>>, record: Option<real>, cooldown: real, start: real, now: real, more: seq<Option<real>>, after: Option<real>)
    requires Spaced(times, record, cooldown, start) && start <= now
    requires more == [] || (more == [Some(start)] && after == Some(start))
    requires after == record || after == Some(start)
    requires more != [] ==> record.None? || !(0.0 <= start - record.value < cooldown)
    ensures Spaced(times + more, after, cooldown, now)
  {
    var all := times + more;
    assert forall i | 0 <= i < |times| :: all[i] == times[i];
  }

  lemma {:induction false} TimesAreSpaced(cfg: Config, disk: Disk, ticks: seq<Tick>, now: real)
    requires ClockForward(ticks) && (ticks == [] || ticks[|ticks| - 1].world.start <= now)
    ensures Spaced(RestartTimes(disk, Trace(cfg, disk, ticks)), Load(DiskAt(cfg, disk, ticks)).lastRestartAt, cfg.cooldown as real, now)
    decreases |ticks|
  {
    if ticks != [] {
      var n := |ticks| - 1;
      var start := ticks[n].world.start;
      var there := DiskAt(cfg, disk, ticks[..n]);
      var s, taken := Load(there), Taken(cfg, ticks[n], Load(there));
      TimesAreSpaced(cfg, disk, ticks[..n], start);
      TraceTimes(cfg, disk, ticks);
      RunRestartsAfterRecording(cfg, ticks[n], there);
      SpacedStep(RestartTimes(disk, Trace(cfg, disk, ticks[..n])), s.lastRestartAt, cfg.cooldown as real, start, now,
                 RestartTimes(there, taken), Load(DiskAfter(there, taken)).lastRestartAt);
    }
  }

  /**
   * Over any history whose clock does not step back, with crashes anywhere and any status file to begin with,
   * the recorded times of the restart commands are pairwise at least one cooldown apart.
   */
  lemma RestartsAreACooldownApart(cfg: Config, disk: Disk, ticks: seq<Tick>)
    requires ClockForward(ticks)
    ensures Apart(RestartTimes(disk, Trace(cfg, disk, ticks)), cfg.cooldown as real)
  {
    TimesAreSpaced(cfg, disk, ticks, if ticks == [] then 0.0 else ticks[|ticks| - 1].world.start);
  }

  lemma {:induction false} TimesComeFromTicks(cfg: Config, disk: Disk, ticks: seq<Tick>, from: real, to: real)
    requires forall i | 0 <= i < |ticks| :: from <= ticks[i].world.start <= to
    ensures Within(RestartTimes(disk, Trace(cfg, disk, ticks)), from, to)
    decreases |ticks|
  {
    if ticks != [] {
      var n := |ticks| - 1;
      TimesComeFromTicks(cfg, disk, ticks[..n], from, to);
      TraceTimes(cfg, disk, ticks);
      RunRestartsAfterRecording(cfg, ticks[n], DiskAt(cfg, disk, ticks[..n]));
    }
  }

  lemma {:induction false} SpacingAddsUp(times: seq<Option<real>>, cooldown: int)
    requires |times| > 0 && Apart(times, cooldown as real)
    ensures times[|times| - 1].value - times[0].value >= ((|times| - 1) * cooldown) as real
  {
    if |times| > 1 {
      SpacingAddsUp(times[..|times| - 1], cooldown);
    }
  }

  /** `n` events a cooldown apart fit into the span. */
  predicate RateOk(n: nat, cooldown: int, span: real) {
    n > 0 ==> ((n - 1) * cooldown) as real <= span
  }

  lemma SpanBound(times: seq<Option<real>>, cooldown: int, from: real, to: real)
    requires Apart(times, cooldown as real) && Within(times, from, to)
    ensures RateOk(|times|, cooldown, to - from)
  {
    if |times| > 0 {
      SpacingAddsUp(times, cooldown);
    }
  }

  /** Hence a span of length T holds at most T / cooldown + 1 restarts. */
  lemma RestartRate(cfg: Config, disk: Disk, ticks: seq<Tick>, from: real, to: real)
    requires ClockForward(ticks) && forall i | 0 <= i < |ticks| :: from <= ticks[i].world.start <= to
    ensures RateOk(|RestartTimes(disk, Trace(cfg, disk, ticks))|, cfg.cooldown, to - from)
  {
    RestartsAreACooldownApart(cfg, disk, ticks);
    TimesComeFromTicks(cfg, disk, ticks, from, to);
    SpanBound(RestartTimes(disk, Trace(cfg, disk, ticks)), cfg.cooldown, from, to);
  }

  /** A single restart comes early exactly when the clock reads less than the record. */
  lemma EarlyRestartExactlyWhen(cfg: Config, w: World, disk: Disk)
    requires cfg.cooldown >= 0 && Load(disk).lastRestartAt.Some?
    ensures (Restart in Effects(cfg, w, Load(disk)) && w.start - Load(disk).lastRestartAt.value < cfg.cooldown as real)
            <==> (RestartRequired(w.first) && w.start < Load(disk).lastRestartAt.value)
  {
    var s := Load(disk);
    if Restarts(cfg, w, s) {
      assert Effects(cfg, w, s)[1] == Restart;
    } else {
      NoRestartIsQuiet(cfg, w, s);
    }
  }

  /** Without the assumption on the clock: down at 100, down at 99, two restarts. */
  lemma ClockSteppingBackRestartsTwice()
    ensures var cfg := Config(900, 30);
            var down := Health(false, false, false);
            var ticks := [Tick(World(100.0, down, false, i => down, 100.0, true), None), Tick(World(99.0, down, false, i => down, 99.0, true), None)];
            RestartTimes(None, Trace(cfg, None, ticks)) == [Some(100.0), Some(99.0)]
  {
    var cfg := Config(900, 30);
    var down := Health(false, false, false);
    var one := Tick(World(100.0, down, false, i => down, 100.0, true), None);
    var two := Tick(World(99.0, down, false, i => down, 99.0, true), None);
    var ticks := [one, two];
    assert ticks[..1] == [one] && [one][..0] == [];
    assert Trace(cfg, None, []) == [];
    var s1 := Restarting(DEFAULT, one.world);
    assert Taken(cfg, one, DEFAULT) == [Write(s1), Restart] + [];
    assert Trace(cfg, None, [one]) == [Write(s1), Restart] + [];
    RestartPrefix(None, s1, []);
    var s2 := Restarting(s1, two.world);
    assert [Write(s1), Restart][..1] == [Write(s1)];
    assert DiskAfter(None, [Write(s1), Restart]) == Some(s1);
    assert [Write(s1), Restart] + [] == [Write(s1), Restart];
    assert Taken(cfg, two, s1) == [Write(s2), Restart] + [];
    RestartPrefix(Some(s1), s2, []);
    TraceTimes(cfg, None, ticks);
  }
}
