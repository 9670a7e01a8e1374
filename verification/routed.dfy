/** Every IPv4 `wan-up` of every run has its route in the kernel at the boundary that follows. */
module Routed {
  import opened Wrappers
  import opened Configuration
  import opened Naming
  import opened StateMachine
  import opened State
  import opened Shadow
  import opened Trace
  import opened Radvd
  import opened Reconcile
  import opened Invariants
  import opened DaemonSpec
  import opened Runs
  import opened Agreement
  import opened Alternation

  predicate IsUp(e: Entry) { e.Fired? && e.event.Wan? && e.event.state.Up? }

  /** `t'` goes on from `t` without a `wan-up`. */
  ghost predicate NoUps(t: History, t': History) {
    t <= t' && forall k :: |t| <= k < |t'| ==> !IsUp(t'[k])
  }

  /** Every `wan-up` that `t'` adds to `t` is of uplink `name`, for a family that is UP in `h`. */
  ghost predicate UpsOf(t: History, t': History, name: string, h: Health) {
    t <= t' && forall k :: |t| <= k < |t'| && IsUp(t'[k]) ==> t'[k].event.name == name && LinkOf(h, t'[k].event.family).state.Up?
  }

  lemma NoUpsThen(t: History, t1: History, t2: History)
    requires NoUps(t, t1) && NoUps(t1, t2)
    ensures NoUps(t, t2)
  {
  }

  lemma UpsThenNone(t: History, t1: History, t2: History, name: string, h: Health)
    requires UpsOf(t, t1, name, h) && NoUps(t1, t2)
    ensures UpsOf(t, t2, name, h)
  {
  }

  // ---------------------------------------------------------------- one uplink

  lemma Pass4NoUps(cfg: Config, c: Core, u: nat, l: Leases)
    requires u < |cfg.uplinks|
    ensures NoUps(c.trace, Reconcile4(cfg, c, u, l).trace)
  {
    hide Target4;
  }

  lemma Pass6NoUps(cfg: Config, c: Core, u: nat, l: Leases)
    requires u < |cfg.uplinks|
    ensures NoUps(c.trace, Reconcile6(cfg, c, u, l).trace)
  {
    hide Own6;
  }

  lemma {:induction false} PassNoUps(cfg: Config, c: Core, files: Snapshot, i: nat)
    requires i <= |cfg.uplinks|
    ensures NoUps(c.trace, Reconcile.ReconcileAll(cfg, c, files, i).trace)
  {
    hide Reconcile4, Reconcile6;
    if i > 0 {
      PassNoUps(cfg, c, files, i - 1);
      var before, l := Reconcile.ReconcileAll(cfg, c, files, i - 1), Read(files, NameOf(cfg, i - 1));
      Pass4NoUps(cfg, before, i - 1, l);
      Pass6NoUps(cfg, Reconcile4(cfg, before, i - 1, l), i - 1, l);
    }
  }

  /** What a cycle reports UP is UP when the uplink's part of the cycle is over: the report comes after the pass. */
  lemma CycleOneUps(cfg: Config, c: Core, u: nat, p: Pings, l: Leases)
    requires Accepted(cfg) && u < |cfg.uplinks|
    ensures var c' := CycleOne(cfg, c, u, p, l); UpsOf(c.trace, c'.trace, NameOf(cfg, u), HealthAt(cfg, c', u))
  {
    hide Accepted, Reconcile4, Reconcile6, Target4, Target6, StepHealth;
    var c', c1 := CycleOne(cfg, c, u, p, l), Reconcile.Observe(cfg, c, u, p);
    var h := HealthAt(cfg, c', u);
    var c2 := if Changed(cfg, c, u, p, V4) then Report(cfg, Reconcile4(cfg, c1, u, l), u, V4) else c1;
    assert NoUps(c.trace, c1.trace);
    Pass4NoUps(cfg, c1, u, l);
    Pass6NoUps(cfg, c2, u, l);
    Frame6(cfg, c2, u, l);
    if !Ipv6Uplink(cfg.uplinks[u]) {
      NoIpv6Pass(cfg, c2, u, l);
    }
    assert h.v4 == HealthAt(cfg, c2, u).v4;
    assert UpsOf(c.trace, c2.trace, NameOf(cfg, u), h);
  }

  // ---------------------------------------------------------------- a cycle

  /** Every `wan-up` that `c'` adds to `t` is of a configured uplink and a family that is UP in `c'`. */
  ghost predicate UpsHold(cfg: Config, t: History, c': Core) {
    && t <= c'.trace
    && forall k :: |t| <= k < |c'.trace| && IsUp(c'.trace[k]) ==>
         exists u :: 0 <= u < |cfg.uplinks| && IsUpAt(cfg, c', u, c'.trace[k].event)
  }

  predicate IsUpAt(cfg: Config, c: Core, u: nat, e: Event)
    requires u < |cfg.uplinks| && e.Wan?
  {
    NameOf(cfg, u) == e.name && LinkOf(HealthAt(cfg, c, u), e.family).state.Up?
  }

  /** Likewise for the first `i` uplinks. */
  ghost predicate UpsBelow(cfg: Config, t: History, c': Core, i: nat)
    requires i <= |cfg.uplinks|
  {
    && t <= c'.trace
    && forall k :: |t| <= k < |c'.trace| && IsUp(c'.trace[k]) ==> exists u :: 0 <= u < i && IsUpAt(cfg, c', u, c'.trace[k].event)
  }

  lemma UpsStep(cfg: Config, t: History, c: Core, c': Core, i: nat)
    requires i < |cfg.uplinks| && UpsBelow(cfg, t, c, i) && OnlyUplink(cfg, c, c', i)
    requires UpsOf(c.trace, c'.trace, NameOf(cfg, i), HealthAt(cfg, c', i))
    ensures UpsBelow(cfg, t, c', i + 1)
  {
    forall k | |t| <= k < |c'.trace| && IsUp(c'.trace[k]) ensures exists u :: 0 <= u < i + 1 && IsUpAt(cfg, c', u, c'.trace[k].event) {
      if k < |c.trace| {
        assert c.trace[k] == c'.trace[k];
        var u :| 0 <= u < i && IsUpAt(cfg, c, u, c.trace[k].event);
        assert IsUpAt(cfg, c', u, c'.trace[k].event);
      } else {
        assert IsUpAt(cfg, c', i, c'.trace[k].event);
      }
    }
  }

  lemma NothingAdded(cfg: Config, c: Core)
    ensures UpsBelow(cfg, c.trace, c, 0)
  {
  }

  lemma {:induction false} CycleUps(cfg: Config, c: Core, probes: Probing, files: Snapshot, i: nat)
    requires Accepted(cfg) && i <= |cfg.uplinks| && CoreOk(cfg, c)
    ensures UpsBelow(cfg, c.trace, Cycle(cfg, c, probes, files, i), i)
  {
    hide Accepted, CoreOk, CycleOne, UpsBelow;
    if i == 0 {
      NothingAdded(cfg, c);
    } else {
      var name := NameOf(cfg, i - 1);
      CycleUps(cfg, c, probes, files, i - 1);
      CycleKeeps(cfg, c, probes, files, i - 1);
      OneMoreUps(cfg, c.trace, Cycle(cfg, c, probes, files, i - 1), i - 1, PingsOf(probes, name), Read(files, name));
    }
  }

  lemma OneMoreUps(cfg: Config, t: History, c: Core, u: nat, p: Pings, l: Leases)
    requires Accepted(cfg) && u < |cfg.uplinks| && CoreOk(cfg, c) && UpsBelow(cfg, t, c, u)
    ensures UpsBelow(cfg, t, CycleOne(cfg, c, u, p, l), u + 1)
  {
    hide Accepted, CoreOk, CycleOne, UpsOf, OnlyUplink, LinksOk, UpsBelow, RecordOk, HealthAt;
    CoreIsLinked(cfg, c);
    CycleOneLinks(cfg, c, u, p, l);
    CycleOneUps(cfg, c, u, p, l);
    UpsStep(cfg, t, c, CycleOne(cfg, c, u, p, l), u);
  }

  // ---------------------------------------------------------------- a turn

  lemma PrimariesNoUps(d: DaemonState)
    ensures NoUps(d.core.trace, UpdatePrimaries(d).core.trace) && UpdatePrimaries(d).core.health == d.core.health
  {
    hide PrimaryIpv4, PrimaryIpv6, NameAt;
  }

  lemma BeginNoUps(d: DaemonState, cfg: Config, files: Snapshot)
    ensures NoUps(d.core.trace, Begin(d, cfg, files).core.trace)
  {
    hide Reconcile.ReconcileAll, UpdatePrimaries, SetupFwd;
    var c := Setup(cfg, d.core.trace);
    PassNoUps(cfg, c, files, |cfg.uplinks|);
    PrimariesNoUps(d.(cfg := cfg, core := Reconcile.ReconcileAll(cfg, c, files, |cfg.uplinks|), regenerated := false));
  }

  lemma ReloadNoUps(d: DaemonState, t: Turn)
    ensures NoUps(d.core.trace, MaybeReload(d, t).core.trace)
  {
    hide Begin;
    if d.reload && t.loaded.Some? {
      BeginNoUps(d.(reload := false), t.loaded.value, t.reloadFiles);
    }
  }

  lemma Usr1NoUps(d: DaemonState, t: Turn)
    ensures NoUps(d.core.trace, MaybeReconcile(d, t).core.trace)
  {
    hide Reconcile.ReconcileAll, UpdatePrimaries, Regenerated, Signalled, MinGwRemaining;
    var c := Reconcile.ReconcileAll(d.cfg, d.core, t.usr1Files, |d.cfg.uplinks|);
    PassNoUps(d.cfg, d.core, t.usr1Files, |d.cfg.uplinks|);
    PrimariesNoUps(d.(reconcile := false, core := c));
  }

  /** No `wan-up` comes from a start, a reload or SIGUSR1. */
  lemma BeforeCycleNoUps(d: DaemonState, t: Turn)
    ensures NoUps(d.core.trace, BeforeCycle(d, t).core.trace)
  {
    hide MaybeReload, MaybeReconcile, MaybeUsr2, Wake, NoUps;
    WakeQuiet(d, t);
    var d1 := Deliver(MaybeReload(Wake(d, t), t), t.signals1);
    ReloadNoUps(Wake(d, t), t);
    Usr2Quiet(d1, t);
    var d2 := Deliver(MaybeUsr2(d1, t), t.signals2);
    Usr1NoUps(d2, t);
    NoUpsThen(d.core.trace, d2.core.trace, MaybeReconcile(d2, t).core.trace);
  }

  lemma MaybeCycleUps(d: DaemonState, t: Turn)
    requires Boundary(d)
    ensures UpsHold(d.cfg, d.core.trace, MaybeCycle(d, t).core) && MaybeCycle(d, t).cfg == d.cfg
  {
    hide Accepted, CoreOk, Cycle, Monitored, UpdatePrimaries, UpsHold, UpsBelow, NoUps, TiersCurrent;
    if ProbeDue(d, t.cycleTime) {
      var d1 := d.(lastProbe := Some(t.cycleTime), beats := d.beats + [CycleStart(t.cycleTime, d.cfg.interval)]);
      var m := Monitored(d1, t);
      MonitoredCore(d1, t);
      CycleUps(d.cfg, d.core, t.probes, t.cycleFiles, |d.cfg.uplinks|);
      PrimariesNoUps(m);
      UpdatePrimariesFrame(m);
      UpsCarry(d.cfg, d.core.trace, m.core, UpdatePrimaries(m).core);
    } else {
      NoneAdded(d.cfg, d.core);
    }
  }

  lemma NoneAdded(cfg: Config, c: Core)
    ensures UpsHold(cfg, c.trace, c)
  {
  }

  lemma UpsCarry(cfg: Config, t: History, c: Core, c': Core)
    requires UpsBelow(cfg, t, c, |cfg.uplinks|) && NoUps(c.trace, c'.trace) && c'.health == c.health
    ensures UpsHold(cfg, t, c')
  {
    forall k | |t| <= k < |c'.trace| && IsUp(c'.trace[k])
      ensures exists u :: 0 <= u < |cfg.uplinks| && IsUpAt(cfg, c', u, c'.trace[k].event)
    {
      assert k < |c.trace| && c.trace[k] == c'.trace[k];
      var u :| 0 <= u < |cfg.uplinks| && IsUpAt(cfg, c, u, c.trace[k].event);
      assert IsUpAt(cfg, c', u, c'.trace[k].event);
    }
  }

  /** Every `wan-up` of a turn, of either family, names a configured uplink that is UP when the turn is over. */
  lemma TurnUps(d: DaemonState, t: Turn)
    requires Boundary(d) && TurnOk(t)
    ensures UpsHold(TurnOnce(d, t).cfg, d.core.trace, TurnOnce(d, t).core)
  {
    hide Boundary, TurnOk, MaybeCycle, BeforeCycle, IsUpAt;
    var before := BeforeCycle(d, t);
    BeforeCycleNoUps(d, t);
    BeforeCycleBoundary(d, t);
    MaybeCycleUps(before, t);
    assert TurnOnce(d, t) == Deliver(MaybeCycle(before, t), t.signals3) by { TurnIsCycle(d, t); }
  }

  // ---------------------------------------------------------------- runs

  /** The uplink's record has its route, and so has every kernel that agrees with the record: in the shared table by the
      uplink's metric and in the uplink's own table, through its interface. */
  ghost predicate IsRouted(d: DaemonState, name: string) {
    exists u :: 0 <= u < |d.cfg.uplinks| && RoutedAt(d, u, name)
  }

  ghost predicate RoutedAt(d: DaemonState, u: nat, name: string)
    requires u < |d.cfg.uplinks|
  {
    && NameOf(d.cfg, u) == name && ShOf(d.cfg, d.core.own, u).gw4.Some?
    && forall k, base :: Agrees(k, d.cfg, d.core.own, base) ==>
         && SharedKey(d.cfg, u) in k.routes4 && (UplinkTable(d.cfg, u), 0) in k.routes4
         && k.routes4[SharedKey(d.cfg, u)].dev == d.cfg.uplinks[u].iface
  }

  /** An IPv4 `wan-up` of this turn has its route installed when the turn is over. */
  lemma ReportedUpIsRouted(d: DaemonState, t: Turn, k: nat, name: string)
    requires Boundary(d) && TurnOk(t) && |d.core.trace| <= k < |TurnOnce(d, t).core.trace|
    requires TurnOnce(d, t).core.trace[k] == Fired(Wan(name, V4, Up))
    ensures IsRouted(TurnOnce(d, t), name)
  {
    hide Accepted, RecordOk, LinksOk, TiersCurrent, PrimariesOk, TurnOk, TurnOnce, Agrees;
    TurnUps(d, t);
    TurnKeeps(d, t);
    var d' := TurnOnce(d, t);
    var u :| 0 <= u < |d'.cfg.uplinks| && IsUpAt(d'.cfg, d'.core, u, d'.core.trace[k].event);
    assert SettledAt(d'.cfg, d'.core, u);
    forall kernel, base | Agrees(kernel, d'.cfg, d'.core.own, base)
      ensures SharedKey(d'.cfg, u) in kernel.routes4 && (UplinkTable(d'.cfg, u), 0) in kernel.routes4
              && kernel.routes4[SharedKey(d'.cfg, u)].dev == d'.cfg.uplinks[u].iface
    {
      SharedTable(kernel, d'.cfg, d'.core, base);
    }
    assert RoutedAt(d', u, name);
  }

  /** Entry `k` of the history was made in turn `i`. */
  ghost predicate MadeIn(d: DaemonState, script: seq<Turn>, i: int, k: nat) {
    0 <= i < |script| && |Loop(d, script[..i]).core.trace| <= k < |Loop(d, script[..i + 1]).core.trace|
  }

  /** Of every run: each IPv4 `wan-up` was fired in some turn, at whose end its route is in the kernel. */
  lemma {:induction false} EveryUpIsRouted(d: DaemonState, script: seq<Turn>, k: nat, name: string)
    requires Boundary(d) && ScriptOk(script) && |d.core.trace| <= k < |Loop(d, script).core.trace|
    requires Loop(d, script).core.trace[k] == Fired(Wan(name, V4, Up))
    ensures exists i :: MadeIn(d, script, i, k) && IsRouted(Loop(d, script[..i + 1]), name)
  {
    hide Boundary, TurnOk, TurnOnce, IsRouted;
    if script != [] {
      var last := |script| - 1;
      var most := script[..last];
      EveryBoundary(d, most);
      assert script[..last + 1] == script;
      if k >= |Loop(d, most).core.trace| {
        ReportedUpIsRouted(Loop(d, most), script[last], k, name);
        assert MadeIn(d, script, last, k);
      } else {
        HistoryGrows(Loop(d, most), script[last]);
        EveryUpIsRouted(d, most, k, name);
        var i :| MadeIn(d, most, i, k) && IsRouted(Loop(d, most[..i + 1]), name);
        assert most[..i] == script[..i] && most[..i + 1] == script[..i + 1];
        assert MadeIn(d, script, i, k);
      }
    }
  }

  lemma HistoryGrows(d: DaemonState, t: Turn)
    requires Boundary(d) && (d.running ==> TurnOk(t))
    ensures d.running ==> d.core.trace <= TurnOnce(d, t).core.trace
  {
    hide Boundary, TurnOk, TurnOnce;
    if d.running {
      TurnUps(d, t);
    }
  }

  /** A start fires no `wan-up`, so the result covers every one of a run. */
  lemma StartNoUps(cfg: Config, conf: Confs, signals: seq<(string, RadvdAction)>, files: Snapshot)
    ensures NoUps([], Start(cfg, conf, signals, files).core.trace)
  {
    hide Begin;
    BeginNoUps(Unstarted(cfg, conf, signals), cfg, files);
  }

  lemma {:induction false} EveryWanUpIsRouted(cfg: Config, conf: Confs, signals: seq<(string, RadvdAction)>, files: Snapshot,
                                              script: seq<Turn>, k: nat, name: string)
    requires Accepted(cfg) && ScriptOk(script) && k < |Loop(Start(cfg, conf, signals, files), script).core.trace|
    requires Loop(Start(cfg, conf, signals, files), script).core.trace[k] == Fired(Wan(name, V4, Up))
    ensures var start := Start(cfg, conf, signals, files);
            exists i :: MadeIn(start, script, i, k) && IsRouted(Loop(start, script[..i + 1]), name)
  {
    hide Boundary, Start, Loop, TurnOk, Accepted, IsRouted;
    var start := Start(cfg, conf, signals, files);
    StartBoundary(cfg, conf, signals, files);
    StartNoUps(cfg, conf, signals, files);
    LoopGrows(start, script);
    EveryUpIsRouted(start, script, k, name);
  }

  lemma {:induction false} LoopGrows(d: DaemonState, script: seq<Turn>)
    requires Boundary(d) && ScriptOk(script)
    ensures d.core.trace <= Loop(d, script).core.trace
  {
    hide Boundary, TurnOk, TurnOnce;
    if script != [] {
      var most := script[..|script| - 1];
      LoopGrows(d, most);
      EveryBoundary(d, most);
      HistoryGrows(Loop(d, most), script[|script| - 1]);
    }
  }
}
