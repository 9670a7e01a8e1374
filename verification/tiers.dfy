/** Exactly when the radvd files advertise the tiers of the current health: always from the first regeneration on, and
    before it iff the files that were found fit the states that the first pass reached. */
module Tiers {
  import opened Wrappers
  import opened Configuration
  import opened StateMachine
  import opened State
  import opened Shadow
  import opened Trace
  import opened Radvd
  import opened Reconcile
  import opened Invariants
  import opened DaemonSpec
  import opened Runs
  import opened Convergence
  import Reload

  /** The states that a first pass over `files` reaches: UP unless no IPv6 record is there. */
  function FromFiles(cfg: Config, files: Snapshot): Healths {
    map s | s in Names(cfg) :: LeaseHealth6(Health(FRESH, FRESH), Read(files, s))
  }

  lemma {:induction false} FirstPassTiers(cfg: Config, t: History, files: Snapshot, conf: Confs)
    requires Accepted(cfg)
    ensures TiersCurrent(cfg, Reconcile.ReconcileAll(cfg, Setup(cfg, t), files, |cfg.uplinks|).health, conf) <==>
            TiersCurrent(cfg, FromFiles(cfg, files), conf)
  {
    hide UplinksDistinct, Reconcile.ReconcileAll, TiersCurrent, RecordOk, SetupFwd, Declared, DeclaredRoute6, PdAfter, LastPd;
    var n := |cfg.uplinks|;
    var start := Setup(cfg, []);
    var c := Reconcile.ReconcileAll(cfg, start, files, n);
    Reload.PassIgnoresHistory(cfg, Setup(cfg, t), start, files, n);
    SetupKeeps(cfg, []);
    AllConverge(cfg, start, files, n);
    forall u | PdUplink(cfg, u)
      ensures HealthOf(FromFiles(cfg, files), cfg.uplinks[u].name).v6.state == HealthOf(c.health, cfg.uplinks[u].name).v6.state
    {
      assert Converged(cfg, start, c, files, u, n);
      assert HealthAt(cfg, start, u) == Health(FRESH, FRESH);
      assert NameOf(cfg, u) in Names(cfg);
    }
    TiersFollowState(cfg, c.health, FromFiles(cfg, files), conf);
  }

  /** Starting writes no radvd file, so the tiers are current iff the files found fit the states of the first pass. */
  lemma TiersAfterStart(cfg: Config, conf: Confs, signals: seq<(string, RadvdAction)>, files: Snapshot)
    requires Accepted(cfg)
    ensures var r := Start(cfg, conf, signals, files);
            !r.regenerated && (TiersCurrent(cfg, r.core.health, r.conf) <==> TiersCurrent(cfg, FromFiles(cfg, files), conf))
  {
    hide Accepted, TiersCurrent, Reconcile.ReconcileAll, Setup, PrimaryIpv4, PrimaryIpv6, ReportPrimary, FromFiles;
    FirstPassTiers(cfg, [], files, conf);
  }

  /** Likewise a successful reload, whatever happened before. */
  lemma TiersAfterReload(d: DaemonState, cfg: Config, files: Snapshot)
    requires Accepted(cfg)
    ensures var r := DoReload(d, Some(cfg), files);
            !r.regenerated && (TiersCurrent(cfg, r.core.health, r.conf) <==> TiersCurrent(cfg, FromFiles(cfg, files), d.conf))
  {
    hide Accepted, TiersCurrent, Reconcile.ReconcileAll, Setup, PrimaryIpv4, PrimaryIpv6, ReportPrimary, FromFiles;
    FirstPassTiers(cfg, d.core.trace, files, d.conf);
  }

  /** An input for which they are not: a PD uplink whose file does not exist yet. */
  lemma TiersAbsentAtStart(cfg: Config, conf: Confs, signals: seq<(string, RadvdAction)>, files: Snapshot, u: nat)
    requires PdUplink(cfg, u) && cfg.uplinks[u].name !in conf
    ensures var d := Start(cfg, conf, signals, files); !TiersCurrent(cfg, d.core.health, d.conf)
  {
    hide Reconcile.ReconcileAll, PrimaryIpv4, PrimaryIpv6, Setup, ReportPrimary;
  }

  // ---------------------------------------------------------------- over runs

  ghost predicate Current(d: DaemonState) { TiersCurrent(d.cfg, d.core.health, d.conf) }

  /** `files` are those the last start or reload read. */
  ghost predicate TiersAsExpected(d: DaemonState, files: Snapshot) {
    Current(d) <==> d.regenerated || TiersCurrent(d.cfg, FromFiles(d.cfg, files), d.conf)
  }

  lemma RegeneratedAsExpected(d: DaemonState, files: Snapshot)
    requires Boundary(d) && d.regenerated
    ensures TiersAsExpected(d, files)
  {
    hide CoreOk, TiersCurrent;
  }

  predicate Reloads(d: DaemonState, t: Turn) { Wake(d, t).reload && t.loaded.Some? }

  lemma ReloadExpected(d: DaemonState, t: Turn, files: Snapshot)
    requires TurnOk(t) && TiersAsExpected(d, files)
    ensures TiersAsExpected(MaybeReload(Wake(d, t), t), if Reloads(d, t) then t.reloadFiles else files)
  {
    hide Accepted, TiersCurrent, Begin, FromFiles;
    if Reloads(d, t) {
      var d0 := Wake(d, t);
      TiersAfterReload(d0, t.loaded.value, t.reloadFiles);
      BeginFrame(d0.(reload := false), t.loaded.value, t.reloadFiles);
    }
  }

  lemma BeginFrame(d: DaemonState, cfg: Config, files: Snapshot)
    ensures Begin(d, cfg, files).cfg == cfg && Begin(d, cfg, files).conf == d.conf
  {
    hide Reconcile.ReconcileAll, PrimaryIpv4, PrimaryIpv6, Setup, ReportPrimary;
  }

  lemma {:induction false} QuietTiers(cfg: Config, c: Core, probes: Probing, files: Snapshot, conf: Confs)
    requires Accepted(cfg) && !AnyIpv6Change(cfg, c, probes, files, |cfg.uplinks|)
    ensures TiersCurrent(cfg, Cycle(cfg, c, probes, files, |cfg.uplinks|).health, conf) <==> TiersCurrent(cfg, c.health, conf)
  {
    hide Accepted, AnyIpv6Change, Cycle, TiersCurrent;
    var c' := Cycle(cfg, c, probes, files, |cfg.uplinks|);
    NoIpv6Change(cfg, c, probes, files, |cfg.uplinks|);
    forall u | PdUplink(cfg, u)
      ensures HealthOf(c'.health, cfg.uplinks[u].name).v6.state == HealthOf(c.health, cfg.uplinks[u].name).v6.state
    {
      assert HealthAt(cfg, c', u).v6.state == HealthAt(cfg, c, u).v6.state;
    }
    TiersFollowState(cfg, c.health, c'.health, conf);
  }

  lemma CycleExpected(d: DaemonState, t: Turn, files: Snapshot)
    requires Boundary(d) && TiersAsExpected(d, files)
    ensures TiersAsExpected(MaybeCycle(d, t), files)
  {
    hide Accepted, TiersCurrent, FromFiles, CoreOk, PrimaryIpv4, PrimaryIpv6, ReportPrimary, NameAt;
    hide Cycle, AnyIpv6Change, Regenerated, Signalled, AllUnits;
    CycleBoundary(d, t);
    if ProbeDue(d, t.cycleTime) {
      var n := |d.cfg.uplinks|;
      if AnyIpv6Change(d.cfg, d.core, t.probes, t.cycleFiles, n) {
        RegeneratedAsExpected(MaybeCycle(d, t), files);
      } else {
        QuietTiers(d.cfg, d.core, t.probes, t.cycleFiles, d.conf);
      }
    }
  }

  lemma TurnExpected(d: DaemonState, t: Turn, files: Snapshot)
    requires Boundary(d) && TurnOk(t) && TiersAsExpected(d, files)
    ensures TiersAsExpected(TurnOnce(d, t), if Reloads(d, t) then t.reloadFiles else files)
  {
    hide CoreOk, TiersCurrent, PrimaryIpv4, PrimaryIpv6, Accepted, TurnOk, FromFiles;
    hide Wake, MaybeReload, MaybeCycle, DoUsr2, DoReconcile;
    var files' := if Reloads(d, t) then t.reloadFiles else files;
    WakeKeeps(d, t);
    ReloadKeeps(Wake(d, t), t);
    ReloadExpected(d, t, files);
    var d1 := Deliver(MaybeReload(Wake(d, t), t), t.signals1);
    Usr2Keeps(d1, t);
    Usr2Regenerates(d1, t);
    if d1.sighup {
      RegeneratedAsExpected(MaybeUsr2(d1, t), files');
    }
    var d2 := Deliver(MaybeUsr2(d1, t), t.signals2);
    ReconcileKeeps(d2, t);
    if d2.reconcile {
      RegeneratedAsExpected(MaybeReconcile(d2, t), files');
    }
    CycleExpected(MaybeReconcile(d2, t), t, files');
  }

  lemma Usr2Regenerates(d: DaemonState, t: Turn)
    ensures d.sighup ==> MaybeUsr2(d, t).regenerated
  {
    hide Regenerated, Signalled;
  }

  /** What the last start or reload of a run read. */
  ghost function LastRead(d: DaemonState, files: Snapshot, script: seq<Turn>): Snapshot {
    if script == [] then files
    else
      var before, t := Loop(d, script[..|script| - 1]), script[|script| - 1];
      if before.running && Reloads(before, t) then t.reloadFiles else LastRead(d, files, script[..|script| - 1])
  }

  lemma {:induction false} LoopExpected(d: DaemonState, files: Snapshot, script: seq<Turn>)
    requires Boundary(d) && TiersAsExpected(d, files) && ScriptOk(script)
    ensures TiersAsExpected(Loop(d, script), LastRead(d, files, script))
  {
    hide Boundary, TiersAsExpected, TurnOk, TurnOnce, Reloads;
    if script != [] {
      var most := script[..|script| - 1];
      LoopExpected(d, files, most);
      EveryBoundary(d, most);
      TurnExpected(Loop(d, most), script[|script| - 1], LastRead(d, files, most));
    }
  }

  /** At every boundary of every run: the tiers are current iff the files were regenerated since the last start or
      reload, or happen to fit the states that its first pass derived from what it read. */
  lemma {:induction false} TiersInRuns(cfg: Config, conf: Confs, signals: seq<(string, RadvdAction)>, files: Snapshot, script: seq<Turn>)
    requires Accepted(cfg) && ScriptOk(script)
    ensures var start := Start(cfg, conf, signals, files);
            TiersAsExpected(Loop(start, script), LastRead(start, files, script))
  {
    hide Boundary, Start, Loop, LastRead, TurnOk, Accepted, TiersCurrent, FromFiles;
    StartBoundary(cfg, conf, signals, files);
    TiersAfterStart(cfg, conf, signals, files);
    StartFrame(cfg, conf, signals, files);
    LoopExpected(Start(cfg, conf, signals, files), files, script);
  }

  lemma StartFrame(cfg: Config, conf: Confs, signals: seq<(string, RadvdAction)>, files: Snapshot)
    ensures Start(cfg, conf, signals, files).cfg == cfg && Start(cfg, conf, signals, files).conf == conf
  {
    hide Begin;
    BeginFrame(Unstarted(cfg, conf, signals), cfg, files);
  }
}
