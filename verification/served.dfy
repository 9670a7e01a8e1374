/**
 * When the kernel is that of a reconcile pass, so that the paths of packets are those of what was read: after start-up,
 * after a reload and after every SIGUSR1. And what a monitoring cycle makes of the links.
 */
module Served {
  import opened Configuration
  import opened StateMachine
  import opened State
  import opened Trace
  import opened Routing
  import opened Shadow
  import opened Radvd
  import opened Reconcile
  import opened Invariants
  import opened DaemonSpec
  import opened Runs
  import opened Alternation
  import opened Sighups
  import opened Paths

  /** Record and health are what a pass over `files` made of a state that was accounted for. */
  ghost predicate Served(d: DaemonState, files: Snapshot, before: Core) {
    && Accepted(d.cfg) && RecordOk(d.cfg, before)
    && var c := Reconcile.ReconcileAll(d.cfg, before, files, |d.cfg.uplinks|); d.core.own == c.own && d.core.health == c.health
  }

  /** Hence packets go where that pass sends them. */
  lemma ServedIsPassing(k: Tables, d: DaemonState, files: Snapshot, before: Core, base: Tables)
    requires Served(d, files, before) && Agrees(k, d.cfg, d.core.own, base)
    ensures Passing(k, d.cfg, before, files, base)
  {
    hide Accepted, RecordOk, Reconcile.ReconcileAll, Agrees;
  }

  lemma UpdateKeepsCore(d: DaemonState)
    ensures var r := UpdatePrimaries(d); r.cfg == d.cfg && r.core.own == d.core.own && r.core.health == d.core.health
  {
    hide PrimaryIpv4, PrimaryIpv6, NameAt, ReportPrimary;
  }

  lemma BeginServes(d: DaemonState, cfg: Config, files: Snapshot)
    requires Accepted(cfg) && Earned(d.core.trace)
    ensures Served(Begin(d, cfg, files), files, Setup(cfg, d.core.trace)) && Begin(d, cfg, files).cfg == cfg
  {
    hide Accepted, RecordOk, Reconcile.ReconcileAll, Setup, UpdatePrimaries, Earned;
    var c := Setup(cfg, d.core.trace);
    SetupKeeps(cfg, d.core.trace);
    UpdateKeepsCore(d.(cfg := cfg, core := Reconcile.ReconcileAll(cfg, c, files, |cfg.uplinks|), regenerated := false));
  }

  /** Start-up serves what it reads. */
  lemma StartServes(cfg: Config, conf: Confs, signals: seq<(string, RadvdAction)>, files: Snapshot)
    requires Accepted(cfg)
    ensures Served(Start(cfg, conf, signals, files), files, Setup(cfg, []))
  {
    hide Accepted, Begin, RecordOk, Reconcile.ReconcileAll, Setup;
    BeginServes(Unstarted(cfg, conf, signals), cfg, files);
  }

  lemma ReloadServes(d: DaemonState, t: Turn)
    requires Boundary(d) && TurnOk(t) && d.reload && t.loaded.Some?
    ensures Served(MaybeReload(d, t), t.reloadFiles, Setup(t.loaded.value, d.core.trace))
  {
    hide Accepted, RecordOk, Begin, Reconcile.ReconcileAll, Setup, Earned, AllSettled, TiersCurrent;
    BeginServes(d.(reload := false), t.loaded.value, t.reloadFiles);
  }

  lemma Usr1Serves(d: DaemonState, t: Turn)
    requires Boundary(d) && d.reconcile
    ensures Served(MaybeReconcile(d, t), t.usr1Files, d.core)
  {
    hide Accepted, RecordOk, LinksOk, AllSettled, TiersCurrent, Reconcile.ReconcileAll, UpdatePrimaries, Regenerated, Signalled;
    hide MinGwRemaining;
    UpdateKeepsCore(d.(reconcile := false, core := Reconcile.ReconcileAll(d.cfg, d.core, t.usr1Files, |d.cfg.uplinks|)));
  }

  /** When a turn comes to its cycle: a SIGUSR1 was served from what its pass read, and so was a reload. */
  lemma TurnServes(d: DaemonState, t: Turn) returns (before: Core)
    requires Boundary(d) && TurnOk(t)
    ensures if d.reconcile || t.signals0.usr1 || t.signals1.usr1 || t.signals2.usr1 then
              Served(BeforeCycle(d, t), t.usr1Files, before)
            else
              Loading(d, t) ==> Served(BeforeCycle(d, t), t.reloadFiles, before)
  {
    hide CoreOk, TiersCurrent, PrimaryIpv4, PrimaryIpv6, Accepted, Served, MaybeReload, MaybeUsr2, DoReconcile, Wake, TurnOk;
    hide AllUnits, Expiring, HupsOf;
    WakeStep(d, t);
    WakeKeeps(d, t);
    ReloadStep(Wake(d, t), t);
    ReloadKeeps(Wake(d, t), t);
    var d0 := MaybeReload(Wake(d, t), t);
    var d1 := Deliver(d0, t.signals1);
    Usr2Step(d1, t);
    Usr2Keeps(d1, t);
    var d2 := Deliver(MaybeUsr2(d1, t), t.signals2);
    if d2.reconcile {
      Usr1Serves(d2, t);
      before := d2.core;
    } else if Wake(d, t).reload && t.loaded.Some? {
      ReloadServes(Wake(d, t), t);
      before := Setup(t.loaded.value, Wake(d, t).core.trace);
      SameCoreServed(d0, MaybeReconcile(d2, t), t.reloadFiles, before);
    } else {
      before := d.core;
    }
  }

  /** Start, reload and stop are announced last, once all else is done; a reload that fails leaves everything as it was. */
  lemma Announced(d: DaemonState, t: Turn, cfg: Config, conf: Confs, signals: seq<(string, RadvdAction)>, files: Snapshot)
    ensures exists before :: Start(cfg, conf, signals, files).core.trace == before + [Fired(DaemonStart)]
    ensures d.reload && t.loaded.Some? ==> exists before :: MaybeReload(d, t).core.trace == before + [Fired(Reloaded)]
    ensures t.loaded.None? ==> MaybeReload(d, t) == d.(reload := false)
    ensures Cleanup(d, files).core.trace == d.core.trace + [Fired(DaemonStop)]
  {
    hide Begin, Regenerated, Signalled;
    assert Start(cfg, conf, signals, files).core.trace ==
           Begin(Unstarted(cfg, conf, signals), cfg, files).core.trace + [Fired(DaemonStart)];
    if d.reload && t.loaded.Some? {
      assert MaybeReload(d, t).core.trace ==
             Begin(d.(reload := false), t.loaded.value, t.reloadFiles).core.trace + [Fired(Reloaded)];
    }
  }

  lemma SameCoreServed(d: DaemonState, d': DaemonState, files: Snapshot, before: Core)
    requires Served(d, files, before) && d'.cfg == d.cfg && d'.core == d.core
    ensures Served(d', files, before)
  {
  }

  // ---------------------------------------------------------------- links over a cycle

  /** One family: the probe's step, but a link that recovers without a record is forced DOWN again. */
  function AfterProbe(l: Link, ok: bool, absent: bool, failureThreshold: int, recoveryThreshold: int): Link {
    var s := Step(l, ok, failureThreshold, recoveryThreshold);
    if l.state == Down && s.state == Up && absent then Link(Down, 0, 0) else s
  }

  lemma CycleOneHealth(cfg: Config, c: Core, u: nat, p: Pings, l: Leases)
    requires Accepted(cfg) && u < |cfg.uplinks|
    ensures var h, h' := HealthAt(cfg, c, u), HealthAt(cfg, CycleOne(cfg, c, u, p, l), u);
            && h'.v4 == AfterProbe(h.v4, p.v4, l.v4.None?, cfg.failureThreshold, cfg.recoveryThreshold)
            && h'.v6 == if !(cfg.uplinks[u].ipv6Pd || cfg.uplinks[u].iaNa) then h.v6
                        else AfterProbe(h.v6, p.v6, l.ra.None? && l.pd.None? && l.na.None?, cfg.failureThreshold, cfg.recoveryThreshold)
  {
    hide Accepted, Reconcile4, Reconcile6, Target4, Target6, Step;
    var c1 := Reconcile.Observe(cfg, c, u, p);
    var c2 := if Changed(cfg, c, u, p, V4) then Report(cfg, Reconcile4(cfg, c1, u, l), u, V4) else c1;
    ObserveFrame(cfg, c, u, p);
    Frame4(cfg, c1, u, l);
    Frame6(cfg, c2, u, l);
    if !cfg.uplinks[u].ipv6Pd && !cfg.uplinks[u].iaNa {
      NoIpv6Pass(cfg, c2, u, l);
    }
    assert HealthAt(cfg, c2, u).v6 == HealthAt(cfg, c1, u).v6;
  }

  /** After a monitoring cycle, for every uplink: each probed family has taken one step on its own probe result. */
  lemma {:induction false} HealthAfterCycle(cfg: Config, c: Core, probes: Probing, files: Snapshot, i: nat, u: nat)
    requires Accepted(cfg) && CoreOk(cfg, c) && u < i <= |cfg.uplinks|
    ensures var h, h' := HealthAt(cfg, c, u), HealthAt(cfg, Cycle(cfg, c, probes, files, i), u);
            var p, l := PingsOf(probes, cfg.uplinks[u].name), LeasesOf(cfg, files, u);
            && h'.v4 == AfterProbe(h.v4, p.v4, l.v4.None?, cfg.failureThreshold, cfg.recoveryThreshold)
            && h'.v6 == if !(cfg.uplinks[u].ipv6Pd || cfg.uplinks[u].iaNa) then h.v6
                        else AfterProbe(h.v6, p.v6, l.ra.None? && l.pd.None? && l.na.None?, cfg.failureThreshold, cfg.recoveryThreshold)
  {
    hide Accepted, CoreOk, LinksOk, RecordOk, CycleOne, AfterProbe, BareBelow, Alternates;
    var before, name := Cycle(cfg, c, probes, files, i - 1), NameOf(cfg, i - 1);
    if u == i - 1 {
      CycleAlternates(cfg, c, probes, files, i - 1);
      CycleOneHealth(cfg, before, u, PingsOf(probes, name), Read(files, name));
    } else {
      CycleKeeps(cfg, c, probes, files, i - 1);
      CoreIsLinked(cfg, before);
      CycleOneLinks(cfg, before, i - 1, PingsOf(probes, name), Read(files, name));
      HealthAfterCycle(cfg, c, probes, files, i - 1, u);
    }
  }
}
