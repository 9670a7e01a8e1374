/** What holds at every loop boundary of every run. */
module Runs {
  import opened Wrappers
  import opened Configuration
  import opened StateMachine
  import opened State
  import opened Shadow
  import opened Trace
  import opened Radvd
  import opened Reconcile
  import opened Invariants
  import opened DaemonSpec

  ghost predicate TurnOk(t: Turn) { t.loaded.Some? ==> Accepted(t.loaded.value) }

  ghost predicate ScriptOk(script: seq<Turn>) {
    forall i :: 0 <= i < |script| ==> TurnOk(script[i])
  }

  ghost predicate PrimariesOk(d: DaemonState) {
    && d.primary4 == NameAt(d.cfg, PrimaryIpv4(d.cfg, d.core.health))
    && d.primary6 == NameAt(d.cfg, PrimaryIpv6(d.cfg, d.core.health))
  }

  ghost predicate Boundary(d: DaemonState) {
    && Accepted(d.cfg)
    && CoreOk(d.cfg, d.core)
    && PrimariesOk(d)
    && (d.regenerated ==> TiersCurrent(d.cfg, d.core.health, d.conf))
  }

  // ---------------------------------------------------------------- steps that only extend the history

  /** Events that are not wan events leave every reading alone. */
  lemma PushOther(cfg: Config, c: Core, e: Event)
    requires CoreOk(cfg, c) && !e.Wan?
    ensures CoreOk(cfg, Push(c, Fired(e)))
  {
    hide LastWan, OkRun, LastPd, Threshold, Earned, InstalledOk, Settled;
    Pushed(c.trace, Fired(e));
    var c' := Push(c, Fired(e));
    forall u, f | 0 <= u < |cfg.uplinks| ensures LinkOk(cfg, c', u, f) {
      assert LinkOk(cfg, c, u, f);
    }
    forall u | 0 <= u < |cfg.uplinks| ensures SettledAt(cfg, c', u) {
      assert SettledAt(cfg, c, u);
    }
    RecordFrom(cfg, c, c');
  }

  lemma UpdatePrimariesKeeps(d: DaemonState)
    requires CoreOk(d.cfg, d.core)
    ensures CoreOk(d.cfg, UpdatePrimaries(d).core) && PrimariesOk(UpdatePrimaries(d))
  {
    hide CoreOk, PrimaryIpv4, PrimaryIpv6;
    var p4 := NameAt(d.cfg, PrimaryIpv4(d.cfg, d.core.health));
    var p6 := NameAt(d.cfg, PrimaryIpv6(d.cfg, d.core.health));
    PushOther(d.cfg, d.core, ChangeOf(d.cfg, V4, d.primary4, p4));
    var c1 := d.core.(trace := ReportPrimary(d.cfg, d.core.trace, V4, d.primary4, p4));
    assert CoreOk(d.cfg, c1);
    PushOther(d.cfg, c1, ChangeOf(d.cfg, V6, d.primary6, p6));
  }

  lemma ExpireKeeps(cfg: Config, c: Core, gone: set<string>)
    requires CoreOk(cfg, c)
    ensures CoreOk(cfg, c.(own := ExpireOwned(c.own, gone)))
  {
    hide LastWan, OkRun, LastPd, Threshold, Earned, InstalledOk, Settled;
    var c' := c.(own := ExpireOwned(c.own, gone));
    forall u | 0 <= u < |cfg.uplinks| ensures ShOf(cfg, c'.own, u) == ShOf(cfg, c.own, u) {
    }
    forall u, f | 0 <= u < |cfg.uplinks| ensures LinkOk(cfg, c', u, f) {
      assert LinkOk(cfg, c, u, f);
    }
    forall u | 0 <= u < |cfg.uplinks| ensures SettledAt(cfg, c', u) {
      assert SettledAt(cfg, c, u);
    }
  }

  lemma WakeKeeps(d: DaemonState, t: Turn)
    requires Boundary(d)
    ensures Boundary(Wake(d, t))
  {
    hide CoreOk, TiersCurrent;
    ExpireKeeps(d.cfg, d.core, t.gone);
  }

  // ---------------------------------------------------------------- start and reload

  lemma BeginKeeps(d: DaemonState, cfg: Config, files: Snapshot)
    requires Accepted(cfg) && Earned(d.core.trace)
    ensures Boundary(Begin(d, cfg, files)) && Begin(d, cfg, files).cfg == cfg && !Begin(d, cfg, files).regenerated
  {
    hide Accepted, RecordOk, LinksOk, AllSettled, Earned, PrimaryIpv4, PrimaryIpv6, Setup, ReconcileAll;
    var c := Setup(cfg, d.core.trace);
    SetupKeeps(cfg, d.core.trace);
    ReconcileAllKeeps(cfg, c, files, |cfg.uplinks|);
    UpdatePrimariesKeeps(d.(cfg := cfg, core := ReconcileAll(cfg, c, files, |cfg.uplinks|), regenerated := false));
  }

  lemma StartBoundary(cfg: Config, conf: Confs, signals: seq<(string, RadvdAction)>, files: Snapshot)
    requires Accepted(cfg)
    ensures Boundary(Start(cfg, conf, signals, files))
  {
    hide CoreOk, Accepted, Begin;
    BeginKeeps(Unstarted(cfg, conf, signals), cfg, files);
    PushOther(cfg, Begin(Unstarted(cfg, conf, signals), cfg, files).core, DaemonStart);
  }

  lemma ReloadKeeps(d: DaemonState, t: Turn)
    requires Boundary(d) && TurnOk(t)
    ensures Boundary(MaybeReload(d, t))
  {
    hide RecordOk, Accepted, Begin, AllSettled;
    if d.reload && t.loaded.Some? {
      var d0 := d.(reload := false);
      BeginKeeps(d0, t.loaded.value, t.reloadFiles);
      PushOther(t.loaded.value, Begin(d0, t.loaded.value, t.reloadFiles).core, Reloaded);
    }
  }

  // ---------------------------------------------------------------- radvd

  lemma RegenerateKeeps(d: DaemonState, files: Snapshot, action: RadvdAction)
    requires Accepted(d.cfg) && CoreOk(d.cfg, d.core) && PrimariesOk(d)
    ensures Boundary(Regenerate(d, files, action)) && Regenerate(d, files, action).regenerated
  {
    hide CoreOk, TiersCurrent, Regenerated, PrimaryIpv4, PrimaryIpv6, Accepted;
    RegeneratedIsCurrent(d.cfg, d.core.health, files, d.conf);
  }

  lemma Usr2Keeps(d: DaemonState, t: Turn)
    requires Boundary(d)
    ensures Boundary(MaybeUsr2(d, t))
  {
    hide CoreOk, TiersCurrent, Regenerated, PrimaryIpv4, PrimaryIpv6, Accepted, Signalled;
    RegenerateKeeps(d.(sighup := false), t.usr2Files, Sighup);
  }

  lemma ReconcileKeeps(d: DaemonState, t: Turn)
    requires Boundary(d)
    ensures Boundary(MaybeReconcile(d, t)) && (d.reconcile ==> MaybeReconcile(d, t).regenerated)
  {
    hide RecordOk, LinksOk, AllSettled, TiersCurrent, Regenerated, PrimaryIpv4, PrimaryIpv6, Accepted, Signalled, ReconcileAll;
    if d.reconcile {
      var d0 := d.(reconcile := false, core := ReconcileAll(d.cfg, d.core, t.usr1Files, |d.cfg.uplinks|));
      ReconcileAllKeeps(d.cfg, d.core, t.usr1Files, |d.cfg.uplinks|);
      UpdatePrimariesKeeps(d0);
      RegenerateKeeps(UpdatePrimaries(d0), t.usr1RadvdFiles, Sighup);
      RegenerateKeeps(UpdatePrimaries(d0), t.usr1RadvdFiles, Write);
    }
  }

  // ---------------------------------------------------------------- probe cycle

  lemma {:induction false} NoIpv6Change(cfg: Config, c: Core, probes: Probing, files: Snapshot, i: nat)
    requires Accepted(cfg) && i <= |cfg.uplinks| && !AnyIpv6Change(cfg, c, probes, files, i)
    ensures forall u :: 0 <= u < |cfg.uplinks| ==>
              HealthAt(cfg, Cycle(cfg, c, probes, files, i), u).v6.state == HealthAt(cfg, c, u).v6.state
  {
    hide Accepted, Reconcile4, Reconcile6, Step;
    if i > 0 {
      NoIpv6Change(cfg, c, probes, files, i - 1);
      var before := Cycle(cfg, c, probes, files, i - 1);
      var p := PingsOf(probes, NameOf(cfg, i - 1));
      var c1 := Reconcile.Observe(cfg, before, i - 1, p);
      ObserveFrame(cfg, before, i - 1, p);
      Frame4(cfg, c1, i - 1, Read(files, NameOf(cfg, i - 1)));
    }
  }

  lemma ObserveFrame(cfg: Config, c: Core, u: nat, p: Pings)
    requires Accepted(cfg) && u < |cfg.uplinks|
    ensures OnlyUplink(cfg, c, Reconcile.Observe(cfg, c, u, p), u)
    ensures HealthAt(cfg, Reconcile.Observe(cfg, c, u, p), u) == StepHealth(cfg, u, HealthAt(cfg, c, u), p)
  {
  }

  lemma {:induction false} NoChangeSameTiers(cfg: Config, c: Core, probes: Probing, files: Snapshot, conf: Confs)
    requires Accepted(cfg) && !AnyIpv6Change(cfg, c, probes, files, |cfg.uplinks|)
    ensures TiersCurrent(cfg, c.health, conf) ==>
              TiersCurrent(cfg, Cycle(cfg, c, probes, files, |cfg.uplinks|).health, conf)
  {
    hide Accepted, AnyIpv6Change, Cycle, TiersCurrent;
    var c' := Cycle(cfg, c, probes, files, |cfg.uplinks|);
    NoIpv6Change(cfg, c, probes, files, |cfg.uplinks|);
    if TiersCurrent(cfg, c.health, conf) {
      forall u | 0 <= u < |cfg.uplinks|
        ensures HealthOf(c'.health, cfg.uplinks[u].name).v6.state == HealthOf(c.health, cfg.uplinks[u].name).v6.state
      {
        assert HealthAt(cfg, c', u).v6.state == HealthAt(cfg, c, u).v6.state;
      }
      TiersFollowState(cfg, c.health, c'.health, conf);
    }
  }

  /** Either some IPv6 link flipped and the files are rewritten, or none did and they still fit. */
  lemma RunCycleTiers(d: DaemonState, t: Turn)
    requires Accepted(d.cfg) && (d.regenerated ==> TiersCurrent(d.cfg, d.core.health, d.conf))
    ensures var d' := RunCycle(d, t); d'.regenerated ==> TiersCurrent(d'.cfg, d'.core.health, d'.conf)
  {
    hide TiersCurrent, Regenerated, PrimaryIpv4, PrimaryIpv6, Accepted, Signalled, Cycle, AnyIpv6Change, NameAt, ReportPrimary;
    var n := |d.cfg.uplinks|;
    if AnyIpv6Change(d.cfg, d.core, t.probes, t.cycleFiles, n) {
      RegeneratedIsCurrent(d.cfg, Cycle(d.cfg, d.core, t.probes, t.cycleFiles, n).health, t.cycleRadvdFiles, d.conf);
    } else {
      NoChangeSameTiers(d.cfg, d.core, t.probes, t.cycleFiles, d.conf);
    }
  }

  lemma MonitoredCore(d: DaemonState, t: Turn)
    ensures Monitored(d, t).cfg == d.cfg
    ensures Monitored(d, t).core == Cycle(d.cfg, d.core, t.probes, t.cycleFiles, |d.cfg.uplinks|)
  {
    hide Cycle, AnyIpv6Change, Regenerated, Signalled, AllUnits;
  }

  lemma RunCycleKeeps(d: DaemonState, t: Turn)
    requires Boundary(d)
    ensures Boundary(RunCycle(d, t))
  {
    hide CoreOk, TiersCurrent, PrimaryIpv4, PrimaryIpv6, Accepted, Cycle, Monitored, UpdatePrimaries;
    CycleKeeps(d.cfg, d.core, t.probes, t.cycleFiles, |d.cfg.uplinks|);
    MonitoredCore(d, t);
    UpdatePrimariesKeeps(Monitored(d, t));
    RunCycleTiers(d, t);
    UpdatePrimariesFrame(Monitored(d, t));
  }

  lemma UpdatePrimariesFrame(d: DaemonState)
    ensures UpdatePrimaries(d).cfg == d.cfg
  {
  }

  lemma CycleBoundary(d: DaemonState, t: Turn)
    requires Boundary(d)
    ensures Boundary(MaybeCycle(d, t))
  {
    hide CoreOk, TiersCurrent, RunCycle, PrimaryIpv4, PrimaryIpv6, Accepted;
    RunCycleKeeps(d.(lastProbe := Some(t.cycleTime), beats := d.beats + [CycleStart(t.cycleTime, d.cfg.interval)]), t);
  }

  // ---------------------------------------------------------------- runs

  lemma TurnKeeps(d: DaemonState, t: Turn)
    requires Boundary(d) && TurnOk(t)
    ensures Boundary(TurnOnce(d, t))
  {
    hide CoreOk, TiersCurrent, PrimaryIpv4, PrimaryIpv6, Accepted, TurnOk;
    hide Wake, MaybeReload, MaybeUsr2, MaybeReconcile, MaybeCycle;
    WakeKeeps(d, t);
    ReloadKeeps(Wake(d, t), t);
    var d1 := Deliver(MaybeReload(Wake(d, t), t), t.signals1);
    Usr2Keeps(d1, t);
    var d2 := Deliver(MaybeUsr2(d1, t), t.signals2);
    ReconcileKeeps(d2, t);
    CycleBoundary(MaybeReconcile(d2, t), t);
  }

  /** Every run, from any start, keeps the boundary invariant: agreement of health, record, events, primaries, tiers. */
  lemma {:induction false} EveryBoundary(d: DaemonState, script: seq<Turn>)
    requires Boundary(d) && ScriptOk(script)
    ensures Boundary(Loop(d, script))
  {
    hide Boundary, TurnOk, TurnOnce;
    if script != [] {
      EveryBoundary(d, script[..|script| - 1]);
      TurnKeeps(Loop(d, script[..|script| - 1]), script[|script| - 1]);
    }
  }
}
