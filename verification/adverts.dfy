/** What radvd's files say over a run: the records and link states of when they were last rewritten, which are still right. */
module Adverts {
  import opened Wrappers
  import opened Configuration
  import opened Naming
  import opened StateMachine
  import opened State
  import opened Shadow
  import opened Radvd
  import opened Reconcile
  import opened Invariants
  import opened DaemonSpec
  import opened Runs
  import opened Alternation
  import opened Sighups

  /** If the files were rewritten since the last start or reload, they say what `written` held. */
  ghost predicate AdvertsOk(d: DaemonState, written: Snapshot) {
    d.regenerated ==> Advertises(d.cfg, d.core.health, written, d.conf)
  }

  /** The files of the daemon's configurations can be named. */
  ghost predicate TurnNamed(t: Turn) { t.loaded.Some? ==> WellNamed(t.loaded.value) }

  lemma RegenerateAdvertises(d: DaemonState, files: Snapshot, action: RadvdAction)
    requires Accepted(d.cfg) && WellNamed(d.cfg)
    ensures AdvertsOk(Regenerate(d, files, action), files)
  {
    hide Accepted, WellNamed, Regenerated, Advertises;
    RegeneratedAdvertises(d.cfg, d.core.health, files, d.conf);
  }

  lemma ReloadAdverts(d: DaemonState, t: Turn, written: Snapshot)
    requires AdvertsOk(d, written)
    ensures AdvertsOk(MaybeReload(d, t), written)
  {
    hide Begin, Advertises;
    if d.reload && t.loaded.Some? {
      BeginStep(d.(reload := false), t.loaded.value, t.reloadFiles);
    }
  }

  lemma Usr2Adverts(d: DaemonState, t: Turn, written: Snapshot)
    requires Accepted(d.cfg) && WellNamed(d.cfg) && AdvertsOk(d, written)
    ensures AdvertsOk(MaybeUsr2(d, t), if d.sighup then t.usr2Files else written)
  {
    hide Accepted, WellNamed, Regenerated, Advertises, Signalled;
    RegenerateAdvertises(d.(sighup := false), t.usr2Files, Sighup);
  }

  lemma Usr1Adverts(d: DaemonState, t: Turn, written: Snapshot)
    requires Accepted(d.cfg) && WellNamed(d.cfg) && AdvertsOk(d, written)
    ensures AdvertsOk(MaybeReconcile(d, t), if d.reconcile then t.usr1RadvdFiles else written)
  {
    hide Accepted, WellNamed, Regenerated, Advertises, Signalled, Reconciled, MinGwRemaining;
    ReconciledFrame(d, t.usr1Files);
    RegenerateAdvertises(Reconciled(d, t.usr1Files), t.usr1RadvdFiles, Sighup);
    RegenerateAdvertises(Reconciled(d, t.usr1Files), t.usr1RadvdFiles, Write);
  }

  lemma {:induction false} QuietAdverts(cfg: Config, c: Core, probes: Probing, files: Snapshot, conf: Confs, written: Snapshot)
    requires Accepted(cfg) && !AnyIpv6Change(cfg, c, probes, files, |cfg.uplinks|) && Advertises(cfg, c.health, written, conf)
    ensures Advertises(cfg, Cycle(cfg, c, probes, files, |cfg.uplinks|).health, written, conf)
  {
    hide Accepted, AnyIpv6Change, Cycle, Advertises;
    var c' := Cycle(cfg, c, probes, files, |cfg.uplinks|);
    NoIpv6Change(cfg, c, probes, files, |cfg.uplinks|);
    forall u | 0 <= u < |cfg.uplinks|
      ensures HealthOf(c'.health, cfg.uplinks[u].name).v6.state == HealthOf(c.health, cfg.uplinks[u].name).v6.state
    {
      assert HealthAt(cfg, c', u).v6.state == HealthAt(cfg, c, u).v6.state;
    }
    TiersFollowState(cfg, c.health, c'.health, conf);
  }

  lemma MonitoredAdverts(d: DaemonState, t: Turn, written: Snapshot)
    requires Accepted(d.cfg) && CoreOk(d.cfg, d.core) && WellNamed(d.cfg) && AdvertsOk(d, written)
    ensures AdvertsOk(Monitored(d, t), if SomeFlip(d.cfg, d.core, t.probes) then t.cycleRadvdFiles else written)
  {
    hide CoreOk, Accepted, WellNamed, Regenerated, Advertises, Signalled, Cycle, AnyIpv6Change, SomeFlip;
    SomeFlipIff(d.cfg, d.core, t.probes, t.cycleFiles);
    var d1 := d.(core := Cycle(d.cfg, d.core, t.probes, t.cycleFiles, |d.cfg.uplinks|));
    RegenerateAdvertises(d1, t.cycleRadvdFiles, Sighup);
    if d.regenerated && !SomeFlip(d.cfg, d.core, t.probes) {
      QuietAdverts(d.cfg, d.core, t.probes, t.cycleFiles, d.conf, written);
    }
  }

  lemma CycleAdverts(d: DaemonState, t: Turn, written: Snapshot)
    requires Boundary(d) && WellNamed(d.cfg) && AdvertsOk(d, written)
    ensures AdvertsOk(MaybeCycle(d, t),
                      if ProbeDue(d, t.cycleTime) && SomeFlip(d.cfg, d.core, t.probes) then t.cycleRadvdFiles else written)
  {
    hide CoreOk, Accepted, WellNamed, Advertises, Monitored, UpdatePrimaries, SomeFlip, TiersCurrent;
    if ProbeDue(d, t.cycleTime) {
      var d1 := d.(lastProbe := Some(t.cycleTime), beats := d.beats + [CycleStart(t.cycleTime, d.cfg.interval)]);
      MonitoredAdverts(d1, t, written);
      UpdateHealth(Monitored(d1, t));
    }
  }

  lemma UpdateHealth(d: DaemonState)
    ensures var r := UpdatePrimaries(d);
            r.core.health == d.core.health && r.cfg == d.cfg && r.conf == d.conf && r.regenerated == d.regenerated
  {
    hide PrimaryIpv4, PrimaryIpv6, NameAt, ReportPrimary;
  }

  /** What a turn reads for the files it writes on request; `before` where it writes none. */
  function RequestedWriting(d: DaemonState, t: Turn, before: Snapshot): Snapshot {
    if d.reconcile || t.signals0.usr1 || t.signals1.usr1 || t.signals2.usr1 then t.usr1RadvdFiles
    else if d.sighup || t.signals0.usr2 || t.signals1.usr2 then t.usr2Files
    else before
  }

  /** What a turn reads for the files it writes last; a flipped link comes after the requests. */
  ghost function WrittenBy(d: DaemonState, t: Turn, before: Snapshot): Snapshot {
    if FlipBeats(d, t) != [] then t.cycleRadvdFiles else RequestedWriting(d, t, before)
  }

  lemma TurnAdverts(d: DaemonState, t: Turn, written: Snapshot)
    requires Boundary(d) && TurnOk(t) && WellNamed(d.cfg) && TurnNamed(t) && AdvertsOk(d, written)
    ensures AdvertsOk(TurnOnce(d, t), WrittenBy(d, t, written)) && WellNamed(TurnOnce(d, t).cfg)
  {
    hide Boundary, TurnOk, Accepted, WellNamed, AdvertsOk, SomeFlip, TurnOnce, MaybeCycle, BeforeCycle, HupsOf;
    var before := BeforeCycle(d, t);
    BeforeStep(d, t);
    BeforeCycleBoundary(d, t);
    BeforeAdverts(d, t, written);
    CycleAdverts(before, t, RequestedWriting(d, t, written));
    CycleStep(before, t);
    TurnIsCycle(d, t);
    DeliverAdverts(MaybeCycle(before, t), t.signals3, WrittenBy(d, t, written));
  }

  lemma DeliverAdverts(d: DaemonState, sig: Signals, written: Snapshot)
    ensures AdvertsOk(Deliver(d, sig), written) <==> AdvertsOk(d, written)
  {
    hide Advertises;
  }

  lemma BeforeAdverts(d: DaemonState, t: Turn, written: Snapshot)
    requires Boundary(d) && TurnOk(t) && WellNamed(d.cfg) && TurnNamed(t) && AdvertsOk(d, written)
    ensures AdvertsOk(BeforeCycle(d, t), RequestedWriting(d, t, written)) && WellNamed(ConfigOf(d, t))
  {
    hide CoreOk, TiersCurrent, PrimariesOk, Accepted, WellNamed, AdvertsOk, MaybeReload, MaybeUsr2, MaybeReconcile, Wake;
    hide AllUnits, HupsOf, Expiring;
    WakeStep(d, t);
    WakeKeeps(d, t);
    WakeAdverts(d, t, written);
    ReloadStep(Wake(d, t), t);
    ReloadKeeps(Wake(d, t), t);
    ReloadAdverts(Wake(d, t), t, written);
    var d0 := MaybeReload(Wake(d, t), t);
    var d1 := Deliver(d0, t.signals1);
    DeliverAdverts(d0, t.signals1, written);
    Usr2Step(d1, t);
    Usr2Adverts(d1, t, written);
    var w := if d1.sighup then t.usr2Files else written;
    DeliverAdverts(MaybeUsr2(d1, t), t.signals2, w);
    Usr1Adverts(Deliver(MaybeUsr2(d1, t), t.signals2), t, w);
  }

  lemma WakeAdverts(d: DaemonState, t: Turn, written: Snapshot)
    requires AdvertsOk(d, written)
    ensures AdvertsOk(Wake(d, t), written)
  {
    hide Advertises;
  }

  /** What the last turn that wrote the files had read for them. */
  ghost function LastWritten(d: DaemonState, script: seq<Turn>): Snapshot {
    if script == [] then map[]
    else
      var before, earlier := Loop(d, script[..|script| - 1]), LastWritten(d, script[..|script| - 1]);
      if before.running then WrittenBy(before, script[|script| - 1], earlier) else earlier
  }

  lemma {:induction false} LoopAdverts(d: DaemonState, script: seq<Turn>)
    requires Boundary(d) && WellNamed(d.cfg) && !d.regenerated
    requires ScriptOk(script) && forall i :: 0 <= i < |script| ==> TurnNamed(script[i])
    ensures AdvertsOk(Loop(d, script), LastWritten(d, script)) && WellNamed(Loop(d, script).cfg)
  {
    hide Boundary, TurnOk, TurnOnce, TurnNamed, Advertises, WellNamed, WrittenBy;
    if script != [] {
      var most := script[..|script| - 1];
      LoopAdverts(d, most);
      EveryBoundary(d, most);
      if Loop(d, most).running {
        TurnAdverts(Loop(d, most), script[|script| - 1], LastWritten(d, most));
      }
    }
  }

  /** At every boundary of every run, once the files were rewritten since the last start or reload: for every PD uplink and
      network, tier, lifetimes and prefix are those of the current link states and of the records read for the last writing. */
  lemma {:induction false} AdvertsInRuns(cfg: Config, conf: Confs, signals: seq<(string, RadvdAction)>, files: Snapshot, script: seq<Turn>)
    requires Accepted(cfg) && WellNamed(cfg)
    requires ScriptOk(script) && forall i :: 0 <= i < |script| ==> TurnNamed(script[i])
    ensures var start := Start(cfg, conf, signals, files); var r := Loop(start, script);
            r.regenerated ==> Advertises(r.cfg, r.core.health, LastWritten(start, script), r.conf)
  {
    hide Boundary, Loop, LastWritten, TurnOk, Accepted, WellNamed, Advertises, TurnNamed, Begin;
    StartBoundary(cfg, conf, signals, files);
    BeginStep(Unstarted(cfg, conf, signals), cfg, files);
    LoopAdverts(Start(cfg, conf, signals, files), script);
  }

  /** The daemon leaves radvd as if every uplink were UP, signalled once more, with nothing of its own in the kernel. */
  lemma CleanupAdvertises(d: DaemonState, files: Snapshot, hs: Healths)
    requires Boundary(d) && WellNamed(d.cfg) && forall u :: PdUplink(d.cfg, u) ==> Ipv6Up(d.cfg, hs, u)
    ensures var r := Cleanup(d, files);
            && Advertises(d.cfg, hs, files, r.conf) && r.signals == d.signals + Hups(AllUnits(d.cfg))
            && r.core.own == NothingOwned(d.cfg)
  {
    hide Accepted, CoreOk, TiersCurrent, WellNamed, Advertises, Regenerated, Signalled;
    var all: Healths := map s | s in Names(d.cfg) :: Health(FRESH, FRESH);
    RegeneratedAdvertises(d.cfg, all, files, d.conf);
    SignalledOnce(d.cfg, |d.cfg.uplinks|);
    var conf := Regenerated(d.cfg, all, files, d.conf, |d.cfg.uplinks|);
    TiersFollowState(d.cfg, all, hs, conf);
  }
}
