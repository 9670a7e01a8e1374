/** The primary-change events of a run form a chain that ends at the current primaries. */
module Primaries {
  import opened Wrappers
  import opened Configuration
  import opened StateMachine
  import opened State
  import opened Trace
  import opened Radvd
  import opened Reconcile
  import opened DaemonSpec
  import opened Runs

  predicate IsChange(e: Entry, f: Family) { e.Fired? && e.event.PrimaryChange? && e.event.fam == f }

  /** The primary of a family that was announced last; none before the first event. */
  function Announced(t: History, f: Family): Option<string> {
    if t == [] then None
    else if IsChange(t[|t| - 1], f) then t[|t| - 1].event.to
    else Announced(t[..|t| - 1], f)
  }

  /** An event goes from the primary announced last to another one. */
  predicate LinksOn(before: History, e: Entry) {
    forall f :: IsChange(e, f) ==> e.event.from == Announced(before, f) && e.event.to != e.event.from
  }

  ghost predicate Chained(t: History) { forall k :: 0 <= k < |t| ==> LinksOn(t[..k], t[k]) }

  ghost predicate PrimariesTied(t: History, primary4: Option<string>, primary6: Option<string>) {
    Chained(t) && Announced(t, V4) == primary4 && Announced(t, V6) == primary6
  }

  lemma {:induction false} OneMore(t: History, e: Entry)
    ensures Chained(t + [e]) <==> Chained(t) && LinksOn(t, e)
    ensures forall f :: Announced(t + [e], f) == if IsChange(e, f) then e.event.to else Announced(t, f)
  {
    var s := t + [e];
    hide LinksOn, IsChange;
    assert s[..|t|] == t && s[|t|] == e;
    assert forall k :: 0 <= k < |t| ==> s[..k] == t[..k] && s[k] == t[k];
    if Chained(s) {
      assert LinksOn(s[..|t|], s[|t|]);
      forall k | 0 <= k < |t| ensures LinksOn(t[..k], t[k]) {
        assert LinksOn(s[..k], s[k]);
      }
    }
  }

  /** `t'` goes on from `t` without announcing a primary. */
  ghost predicate Silent(t: History, t': History) {
    t <= t' && forall k, f :: |t| <= k < |t'| ==> !IsChange(t'[k], f)
  }

  lemma SilentThen(t: History, t1: History, t2: History)
    requires Silent(t, t1) && Silent(t1, t2)
    ensures Silent(t, t2)
  {
  }

  lemma {:induction false} SilentKeeps(t: History, t': History, primary4: Option<string>, primary6: Option<string>)
    requires Silent(t, t') && PrimariesTied(t, primary4, primary6)
    ensures PrimariesTied(t', primary4, primary6)
    decreases |t'|
  {
    hide Chained, Announced;
    if |t'| > |t| {
      var most := t'[..|t'| - 1];
      SilentKeeps(t, most, primary4, primary6);
      OneMore(most, t'[|t'| - 1]);
      assert t' == most + [t'[|t'| - 1]];
    } else {
      assert t' == t;
    }
  }

  // ---------------------------------------------------------------- passes and cycles announce nothing

  lemma Pass4Silent(cfg: Config, c: Core, u: nat, l: Leases)
    requires u < |cfg.uplinks|
    ensures Silent(c.trace, Reconcile4(cfg, c, u, l).trace)
  {
    hide Target4;
  }

  lemma Pass6Silent(cfg: Config, c: Core, u: nat, l: Leases)
    requires u < |cfg.uplinks|
    ensures Silent(c.trace, Reconcile6(cfg, c, u, l).trace)
  {
    hide Own6;
  }

  lemma {:induction false} PassSilent(cfg: Config, c: Core, files: Snapshot, i: nat)
    requires i <= |cfg.uplinks|
    ensures Silent(c.trace, Reconcile.ReconcileAll(cfg, c, files, i).trace)
  {
    hide Reconcile4, Reconcile6, IsChange;
    if i > 0 {
      PassSilent(cfg, c, files, i - 1);
      var before, l := Reconcile.ReconcileAll(cfg, c, files, i - 1), Read(files, NameOf(cfg, i - 1));
      Pass4Silent(cfg, before, i - 1, l);
      Pass6Silent(cfg, Reconcile4(cfg, before, i - 1, l), i - 1, l);
    }
  }

  lemma ReportSilent(cfg: Config, c: Core, u: nat, f: Family)
    requires u < |cfg.uplinks|
    ensures Silent(c.trace, Report(cfg, c, u, f).trace)
  {
  }

  lemma ObserveSilent(cfg: Config, c: Core, u: nat, p: Pings)
    requires u < |cfg.uplinks|
    ensures Silent(c.trace, Reconcile.Observe(cfg, c, u, p).trace)
  {
    hide StepHealth;
  }

  lemma CycleOneSilent(cfg: Config, c: Core, u: nat, p: Pings, l: Leases)
    requires u < |cfg.uplinks|
    ensures Silent(c.trace, CycleOne(cfg, c, u, p, l).trace)
  {
    hide Reconcile4, Reconcile6, Report, Changed, Reconcile.Observe, IsChange;
    var c1 := Reconcile.Observe(cfg, c, u, p);
    var c2 := if Changed(cfg, c, u, p, V4) then Report(cfg, Reconcile4(cfg, c1, u, l), u, V4) else c1;
    ObserveSilent(cfg, c, u, p);
    Pass4Silent(cfg, c1, u, l);
    ReportSilent(cfg, Reconcile4(cfg, c1, u, l), u, V4);
    Pass6Silent(cfg, c2, u, l);
    ReportSilent(cfg, Reconcile6(cfg, c2, u, l), u, V6);
  }

  lemma {:induction false} CycleSilent(cfg: Config, c: Core, probes: Probing, files: Snapshot, i: nat)
    requires i <= |cfg.uplinks|
    ensures Silent(c.trace, Cycle(cfg, c, probes, files, i).trace)
  {
    hide CycleOne, IsChange;
    if i > 0 {
      var name := NameOf(cfg, i - 1);
      CycleSilent(cfg, c, probes, files, i - 1);
      CycleOneSilent(cfg, Cycle(cfg, c, probes, files, i - 1), i - 1, PingsOf(probes, name), Read(files, name));
    }
  }

  // ---------------------------------------------------------------- turns

  ghost predicate Told(d: DaemonState) { PrimariesTied(d.core.trace, d.primary4, d.primary6) }

  lemma {:induction false} ReportTold(cfg: Config, t: History, f: Family, from: Option<string>, to: Option<string>)
    requires Chained(t) && Announced(t, f) == from
    ensures var t' := ReportPrimary(cfg, t, f, from, to);
            Chained(t') && forall g :: Announced(t', g) == if g == f then to else Announced(t, g)
  {
    hide Chained, Announced, IfaceFrom;
    OneMore(t, Fired(ChangeOf(cfg, f, from, to)));
  }

  lemma UpdateTold(d: DaemonState)
    requires Told(d)
    ensures Told(UpdatePrimaries(d))
  {
    hide Chained, Announced, PrimaryIpv4, PrimaryIpv6, NameAt, ReportPrimary;
    var p4 := NameAt(d.cfg, PrimaryIpv4(d.cfg, d.core.health));
    var p6 := NameAt(d.cfg, PrimaryIpv6(d.cfg, d.core.health));
    ReportTold(d.cfg, d.core.trace, V4, d.primary4, p4);
    ReportTold(d.cfg, ReportPrimary(d.cfg, d.core.trace, V4, d.primary4, p4), V6, d.primary6, p6);
  }

  lemma {:induction false} OtherEvent(t: History, e: Event, primary4: Option<string>, primary6: Option<string>)
    requires PrimariesTied(t, primary4, primary6) && !e.PrimaryChange?
    ensures PrimariesTied(t + [Fired(e)], primary4, primary6)
  {
    hide Chained, Announced;
    OneMore(t, Fired(e));
  }

  lemma BeginTold(d: DaemonState, cfg: Config, files: Snapshot)
    requires Told(d)
    ensures Told(Begin(d, cfg, files))
  {
    hide Reconcile.ReconcileAll, UpdatePrimaries, SetupFwd, PrimariesTied;
    var c := Setup(cfg, d.core.trace);
    assert Silent(d.core.trace, c.trace);
    PassSilent(cfg, c, files, |cfg.uplinks|);
    SilentThen(d.core.trace, c.trace, Reconcile.ReconcileAll(cfg, c, files, |cfg.uplinks|).trace);
    SilentKeeps(d.core.trace, Reconcile.ReconcileAll(cfg, c, files, |cfg.uplinks|).trace, d.primary4, d.primary6);
    UpdateTold(d.(cfg := cfg, core := Reconcile.ReconcileAll(cfg, c, files, |cfg.uplinks|), regenerated := false));
  }

  lemma ReloadTold(d: DaemonState, t: Turn)
    requires Told(d)
    ensures Told(MaybeReload(d, t))
  {
    hide Begin, PrimariesTied;
    if d.reload && t.loaded.Some? {
      var d0 := d.(reload := false);
      BeginTold(d0, t.loaded.value, t.reloadFiles);
      var b := Begin(d0, t.loaded.value, t.reloadFiles);
      OtherEvent(b.core.trace, Reloaded, b.primary4, b.primary6);
    }
  }

  lemma Usr2Told(d: DaemonState, t: Turn)
    requires Told(d)
    ensures Told(MaybeUsr2(d, t))
  {
    hide Regenerated, Signalled, PrimariesTied;
  }

  lemma Usr1Told(d: DaemonState, t: Turn)
    requires Told(d)
    ensures Told(MaybeReconcile(d, t))
  {
    hide Reconcile.ReconcileAll, UpdatePrimaries, Regenerated, Signalled, MinGwRemaining, PrimariesTied;
    var c := Reconcile.ReconcileAll(d.cfg, d.core, t.usr1Files, |d.cfg.uplinks|);
    PassSilent(d.cfg, d.core, t.usr1Files, |d.cfg.uplinks|);
    SilentKeeps(d.core.trace, c.trace, d.primary4, d.primary6);
    UpdateTold(d.(reconcile := false, core := c));
  }

  lemma CycleTold(d: DaemonState, t: Turn)
    requires Told(d)
    ensures Told(MaybeCycle(d, t))
  {
    hide Cycle, Monitored, UpdatePrimaries, PrimariesTied;
    if ProbeDue(d, t.cycleTime) {
      var d1 := d.(lastProbe := Some(t.cycleTime), beats := d.beats + [CycleStart(t.cycleTime, d.cfg.interval)]);
      MonitoredCore(d1, t);
      MonitoredPrimaries(d1, t);
      CycleSilent(d.cfg, d.core, t.probes, t.cycleFiles, |d.cfg.uplinks|);
      SilentKeeps(d.core.trace, Monitored(d1, t).core.trace, d.primary4, d.primary6);
      UpdateTold(Monitored(d1, t));
    }
  }

  lemma MonitoredPrimaries(d: DaemonState, t: Turn)
    ensures Monitored(d, t).primary4 == d.primary4 && Monitored(d, t).primary6 == d.primary6
  {
    hide Cycle, AnyIpv6Change, Regenerated, Signalled;
  }

  lemma TurnTold(d: DaemonState, t: Turn)
    requires Told(d)
    ensures Told(TurnOnce(d, t))
  {
    hide PrimariesTied, MaybeReload, MaybeUsr2, MaybeReconcile, MaybeCycle;
    ReloadTold(Wake(d, t), t);
    var d1 := Deliver(MaybeReload(Wake(d, t), t), t.signals1);
    Usr2Told(d1, t);
    var d2 := Deliver(MaybeUsr2(d1, t), t.signals2);
    Usr1Told(d2, t);
    CycleTold(MaybeReconcile(d2, t), t);
  }

  lemma {:induction false} LoopTold(d: DaemonState, script: seq<Turn>)
    requires Told(d)
    ensures Told(Loop(d, script))
  {
    hide Told, TurnOnce;
    if script != [] {
      LoopTold(d, script[..|script| - 1]);
      if Loop(d, script[..|script| - 1]).running {
        TurnTold(Loop(d, script[..|script| - 1]), script[|script| - 1]);
      }
    }
  }

  /** Of every run, reloads included: each primary-change event goes from the primary announced before it to another one,
      and the last of each family announces the primary that the daemon holds. */
  lemma {:induction false} PrimaryChain(cfg: Config, conf: Confs, signals: seq<(string, RadvdAction)>, files: Snapshot, script: seq<Turn>)
    ensures Told(Loop(Start(cfg, conf, signals, files), script))
  {
    hide Begin, Loop, PrimariesTied;
    var d := Unstarted(cfg, conf, signals);
    NothingTold();
    BeginTold(d, cfg, files);
    var b := Begin(d, cfg, files);
    OtherEvent(b.core.trace, DaemonStart, b.primary4, b.primary6);
    LoopTold(Start(cfg, conf, signals, files), script);
  }

  lemma NothingTold()
    ensures PrimariesTied([], None, None)
  {
  }

  /** An event names the interfaces of the uplinks it names, where the configuration in force still has them. */
  lemma ChangeNames(cfg: Config, f: Family, from: Option<string>, to: Option<string>)
    requires Accepted(cfg)
    ensures forall u :: 0 <= u < |cfg.uplinks| ==>
              && (from == Some(cfg.uplinks[u].name) ==> ChangeOf(cfg, f, from, to).fromIface == Some(cfg.uplinks[u].iface))
              && (to == Some(cfg.uplinks[u].name) ==> ChangeOf(cfg, f, from, to).toIface == Some(cfg.uplinks[u].iface))
    ensures (forall u :: 0 <= u < |cfg.uplinks| ==> from != Some(cfg.uplinks[u].name)) <==> ChangeOf(cfg, f, from, to).fromIface.None?
    ensures (forall u :: 0 <= u < |cfg.uplinks| ==> to != Some(cfg.uplinks[u].name)) <==> ChangeOf(cfg, f, from, to).toIface.None?
  {
    forall u | 0 <= u < |cfg.uplinks|
      ensures IfaceFrom(cfg, Some(cfg.uplinks[u].name), 0) == Some(cfg.uplinks[u].iface)
    {
      IfaceOfUplink(cfg, u, 0);
    }
  }
}
