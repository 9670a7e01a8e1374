/** Exactly when the wan events of a link alternate. */
module Alternation {
  import opened Wrappers
  import opened Configuration
  import opened Naming
  import opened StateMachine
  import opened State
  import opened Trace
  import opened Radvd
  import opened Reconcile
  import opened Invariants
  import opened DaemonSpec
  import opened Runs

  predicate AlternatesAt(before: History, e: Entry, name: string, f: Family) {
    match e
    case Fired(Wan(n, g, s)) => n == name && g == f ==> s != LastWan(before, name, f)
    case _ => true
  }

  /** No event of the link repeats what was last reported; before the first event the link counts as UP. */
  ghost predicate Alternates(t: History, name: string, f: Family) {
    forall k :: 0 <= k < |t| ==> AlternatesAt(t[..k], t[k], name, f)
  }

  lemma {:induction false} Extended(t: History, e: Entry)
    ensures forall n, f :: Alternates(t + [e], n, f) <==> Alternates(t, n, f) && AlternatesAt(t, e, n, f)
    ensures forall n, f :: LastWan(t + [e], n, f) == NextWan(LastWan(t, n, f), e, n, f)
  {
    hide LastWan, AlternatesAt, OkRun, LastPd, Threshold, Earned, Events;
    Pushed(t, e);
    var s := t + [e];
    assert s[..|t|] == t && s[|t|] == e;
    assert forall k :: 0 <= k < |t| ==> s[..k] == t[..k] && s[k] == t[k];
    forall n, f ensures Alternates(s, n, f) <==> Alternates(t, n, f) && AlternatesAt(t, e, n, f) {
      if Alternates(s, n, f) {
        assert AlternatesAt(s[..|t|], s[|t|], n, f);
        forall k | 0 <= k < |t| ensures AlternatesAt(t[..k], t[k], n, f) {
          assert AlternatesAt(s[..k], s[k], n, f);
        }
      }
    }
  }

  /** Same verdicts and same last events for every link. */
  ghost predicate SameWans(t: History, t': History) {
    forall n, f :: (Alternates(t', n, f) <==> Alternates(t, n, f)) && LastWan(t', n, f) == LastWan(t, n, f)
  }

  /** `t'` is `t` with one more event, of link (name, f), as far as wan events go. */
  ghost predicate OneWan(t: History, t': History, name: string, f: Family, s: LinkState) {
    forall n, g ::
      if n == name && g == f then (Alternates(t', n, g) <==> Alternates(t, n, g) && s != LastWan(t, n, g)) && LastWan(t', n, g) == s
      else (Alternates(t', n, g) <==> Alternates(t, n, g)) && LastWan(t', n, g) == LastWan(t, n, g)
  }

  lemma OtherEntry(t: History, e: Entry)
    requires !e.Init? && !(e.Fired? && e.event.Wan?)
    ensures SameWans(t, t + [e])
  {
    hide LastWan, Alternates;
    Extended(t, e);
  }

  lemma WanEntry(t: History, name: string, f: Family, s: LinkState)
    ensures OneWan(t, t + [Fired(Wan(name, f, s))], name, f, s)
  {
    hide LastWan, Alternates;
    Extended(t, Fired(Wan(name, f, s)));
  }

  // ---------------------------------------------------------------- the steps of a cycle and of a pass

  lemma ObserveWans(cfg: Config, c: Core, u: nat, p: Pings)
    requires u < |cfg.uplinks|
    ensures SameWans(c.trace, Reconcile.Observe(cfg, c, u, p).trace)
  {
    hide LastWan, Alternates;
    OtherEntry(c.trace, Probed(NameOf(cfg, u), V4, p.v4));
    OtherEntry(c.trace + [Probed(NameOf(cfg, u), V4, p.v4)], Probed(NameOf(cfg, u), V6, p.v6));
  }

  predicate Forces4(h: Health, l: Leases) { l.v4.None? && h.v4.state.Up? }

  predicate Forces6(h: Health, l: Leases) { l.ra.None? && l.pd.None? && l.na.None? && h.v6.state.Up? }

  lemma Pass4Wans(cfg: Config, c: Core, u: nat, l: Leases)
    requires u < |cfg.uplinks|
    ensures var t' := Reconcile4(cfg, c, u, l).trace;
            if Forces4(HealthAt(cfg, c, u), l) then OneWan(c.trace, t', NameOf(cfg, u), V4, Down) else SameWans(c.trace, t')
  {
    hide LastWan, Alternates, Target4;
    WanEntry(c.trace, NameOf(cfg, u), V4, Down);
  }

  lemma Pass6Wans(cfg: Config, c: Core, u: nat, l: Leases)
    requires u < |cfg.uplinks| && Ipv6Uplink(cfg.uplinks[u])
    ensures var t' := Reconcile6(cfg, c, u, l).trace;
            if Forces6(HealthAt(cfg, c, u), l) then OneWan(c.trace, t', NameOf(cfg, u), V6, Down) else SameWans(c.trace, t')
  {
    hide LastWan, Alternates, Own6;
    var name, h := NameOf(cfg, u), HealthAt(cfg, c, u);
    WanEntry(c.trace, name, V6, Down);
    if l.pd.Some? {
      OtherEntry(TraceForced(c.trace, name, V6, LeaseHealth6(h, l) != h), PdSeen(name, Delegation(l).value));
    }
  }

  // ---------------------------------------------------------------- a pass always alternates

  /** A forced DOWN hits only a link that is UP, and so was last reported UP. */
  lemma ReconcileOneAlternates(cfg: Config, c: Core, u: nat, l: Leases)
    requires Accepted(cfg) && u < |cfg.uplinks| && LinksOk(cfg, c)
    ensures forall n, f :: Alternates(ReconcileOne(cfg, c, u, l).trace, n, f) <==> Alternates(c.trace, n, f)
  {
    hide Accepted, LastWan, OkRun, Threshold, Earned, Alternates, Reconcile6, Target4;
    var c1 := Reconcile4(cfg, c, u, l);
    assert LinkOk(cfg, c, u, V4) && LinkOk(cfg, c, u, V6);
    Frame4(cfg, c, u, l);
    Pass4Wans(cfg, c, u, l);
    if Ipv6Uplink(cfg.uplinks[u]) {
      Pass6Wans(cfg, c1, u, l);
    } else {
      NoIpv6Pass(cfg, c1, u, l);
    }
  }

  lemma NoIpv6Pass(cfg: Config, c: Core, u: nat, l: Leases)
    requires u < |cfg.uplinks| && !Ipv6Uplink(cfg.uplinks[u])
    ensures Reconcile6(cfg, c, u, l) == c
  {
  }

  lemma {:induction false} PassAlternates(cfg: Config, c: Core, files: Snapshot, i: nat)
    requires Accepted(cfg) && i <= |cfg.uplinks| && RecordOk(cfg, c) && LinksOk(cfg, c)
    ensures forall n, f :: Alternates(Reconcile.ReconcileAll(cfg, c, files, i).trace, n, f) <==> Alternates(c.trace, n, f)
  {
    hide Accepted, RecordOk, LinksOk, ReconcileOne, Alternates;
    if i > 0 {
      PassAlternates(cfg, c, files, i - 1);
      ReconcileAllKeeps(cfg, c, files, i - 1);
      ReconcileOneAlternates(cfg, Reconcile.ReconcileAll(cfg, c, files, i - 1), i - 1, Read(files, NameOf(cfg, i - 1)));
    }
  }

  // ---------------------------------------------------------------- a cycle alternates unless a link recovers bare

  /** The link is about to recover although no record of its family is there: the guards of the recovery and of the forced DOWN. */
  predicate BareRecovery(cfg: Config, u: nat, h: Health, p: Pings, l: Leases, f: Family)
    requires u < |cfg.uplinks|
  {
    match f
    case V4 => h.v4.state.Down? && p.v4 && h.v4.successes + 1 >= cfg.recoveryThreshold && l.v4.None?
    case V6 => Ipv6Uplink(cfg.uplinks[u]) && h.v6.state.Down? && p.v6 && h.v6.successes + 1 >= cfg.recoveryThreshold
               && l.ra.None? && l.pd.None? && l.na.None?
  }

  /** Where one family of one uplink stands after its part of the cycle. */
  lemma FamilyWans4(cfg: Config, c: Core, u: nat, p: Pings, l: Leases)
    requires Accepted(cfg) && u < |cfg.uplinks| && LinksOk(cfg, c)
    ensures var c1 := Reconcile.Observe(cfg, c, u, p);
            var c2 := if Changed(cfg, c, u, p, V4) then Report(cfg, Reconcile4(cfg, c1, u, l), u, V4) else c1;
            && (forall n, f :: (Alternates(c2.trace, n, f) <==>
                                Alternates(c.trace, n, f)
                                && !(n == NameOf(cfg, u) && f == V4 && BareRecovery(cfg, u, HealthAt(cfg, c, u), p, l, V4))))
            && (forall n, f :: n != NameOf(cfg, u) || f != V4 ==> LastWan(c2.trace, n, f) == LastWan(c.trace, n, f))
            && HealthAt(cfg, c2, u).v6 == StepHealth(cfg, u, HealthAt(cfg, c, u), p).v6
  {
    hide Accepted, LastWan, OkRun, Threshold, Earned, Alternates, Target4, Reconcile4;
    var c1 := Reconcile.Observe(cfg, c, u, p);
    ObserveWans(cfg, c, u, p);
    assert HealthAt(cfg, c1, u) == StepHealth(cfg, u, HealthAt(cfg, c, u), p);
    assert LinkOk(cfg, c, u, V4);
    if Changed(cfg, c, u, p, V4) {
      var r := Reconcile4(cfg, c1, u, l);
      Pass4Wans(cfg, c1, u, l);
      Frame4(cfg, c1, u, l);
      WanEntry(r.trace, NameOf(cfg, u), V4, HealthAt(cfg, r, u).v4.state);
    }
  }

  lemma FamilyWans6(cfg: Config, c: Core, u: nat, l: Leases, before: LinkState)
    requires Accepted(cfg) && u < |cfg.uplinks| && Ipv6Uplink(cfg.uplinks[u])
    requires LastWan(c.trace, NameOf(cfg, u), V6) == before && HealthAt(cfg, c, u).v6.state != before
    ensures var t' := Report(cfg, Reconcile6(cfg, c, u, l), u, V6).trace;
            forall n, f :: Alternates(t', n, f) <==>
                           Alternates(c.trace, n, f) && !(n == NameOf(cfg, u) && f == V6 && Forces6(HealthAt(cfg, c, u), l))
  {
    hide Accepted, LastWan, Alternates, Reconcile6, Target6;
    var r := Reconcile6(cfg, c, u, l);
    Pass6Wans(cfg, c, u, l);
    Frame6(cfg, c, u, l);
    WanEntry(r.trace, NameOf(cfg, u), V6, HealthAt(cfg, r, u).v6.state);
  }

  /** For every uplink and either family: the events still alternate after the uplink's part of a cycle iff they did before
      and the link does not recover bare. No other link is affected. */
  lemma CycleOneAlternates(cfg: Config, c: Core, u: nat, p: Pings, l: Leases)
    requires Accepted(cfg) && u < |cfg.uplinks| && LinksOk(cfg, c)
    ensures forall n, f :: Alternates(CycleOne(cfg, c, u, p, l).trace, n, f) <==>
                           Alternates(c.trace, n, f) && !(n == NameOf(cfg, u) && BareRecovery(cfg, u, HealthAt(cfg, c, u), p, l, f))
  {
    hide Accepted, LastWan, OkRun, Threshold, Earned, Alternates, Reconcile4, Reconcile6, Report, Reconcile.Observe;
    var c1 := Reconcile.Observe(cfg, c, u, p);
    var c2 := if Changed(cfg, c, u, p, V4) then Report(cfg, Reconcile4(cfg, c1, u, l), u, V4) else c1;
    FamilyWans4(cfg, c, u, p, l);
    assert LinkOk(cfg, c, u, V6);
    if Changed(cfg, c, u, p, V6) {
      FamilyWans6(cfg, c2, u, l, HealthAt(cfg, c, u).v6.state);
    }
    var h, t := HealthAt(cfg, c, u), CycleOne(cfg, c, u, p, l).trace;
    assert BareRecovery(cfg, u, h, p, l, V6) <==> Changed(cfg, c, u, p, V6) && Forces6(HealthAt(cfg, c2, u), l);
    forall n ensures Alternates(t, n, V4) <==> Alternates(c.trace, n, V4) && !(n == NameOf(cfg, u) && BareRecovery(cfg, u, h, p, l, V4)) {
      assert Alternates(c2.trace, n, V4) <==> Alternates(c.trace, n, V4) && !(n == NameOf(cfg, u) && BareRecovery(cfg, u, h, p, l, V4));
      assert Alternates(t, n, V4) <==> Alternates(c2.trace, n, V4);
    }
    forall n ensures Alternates(t, n, V6) <==> Alternates(c.trace, n, V6) && !(n == NameOf(cfg, u) && BareRecovery(cfg, u, h, p, l, V6)) {
      assert Alternates(c2.trace, n, V6) <==> Alternates(c.trace, n, V6);
    }
  }

  /** What was reported of a link that recovers bare: DOWN, twice over. */
  lemma ReportedDownTwice(cfg: Config, c: Core, u: nat, p: Pings, l: Leases)
    requires Accepted(cfg) && u < |cfg.uplinks|
    ensures BareRecovery(cfg, u, HealthAt(cfg, c, u), p, l, V4) ==>
              var c1, down := Reconcile.Observe(cfg, c, u, p), Fired(Wan(NameOf(cfg, u), V4, Down));
              Changed(cfg, c, u, p, V4) && Report(cfg, Reconcile4(cfg, c1, u, l), u, V4).trace == c1.trace + [down] + [down]
    ensures forall c2 :: BareRecovery(cfg, u, HealthAt(cfg, c, u), p, l, V6)
                         && HealthAt(cfg, c2, u).v6 == StepHealth(cfg, u, HealthAt(cfg, c, u), p).v6 ==>
              var down := Fired(Wan(NameOf(cfg, u), V6, Down));
              Changed(cfg, c, u, p, V6) && Report(cfg, Reconcile6(cfg, c2, u, l), u, V6).trace == c2.trace + [down] + [down]
  {
    hide Accepted, Target4, Own6;
  }

  ghost predicate BareBelow(cfg: Config, c: Core, probes: Probing, files: Snapshot, i: nat, name: string, f: Family)
    requires i <= |cfg.uplinks|
  {
    exists u :: 0 <= u < i && NameOf(cfg, u) == name
                && BareRecovery(cfg, u, HealthAt(cfg, c, u), PingsOf(probes, name), Read(files, name), f)
  }

  /** A whole cycle, judged by the health before it. */
  lemma {:induction false} CycleAlternates(cfg: Config, c: Core, probes: Probing, files: Snapshot, i: nat)
    requires Accepted(cfg) && i <= |cfg.uplinks| && CoreOk(cfg, c)
    ensures forall n, f :: Alternates(Cycle(cfg, c, probes, files, i).trace, n, f) <==>
                           Alternates(c.trace, n, f) && !BareBelow(cfg, c, probes, files, i, n, f)
    ensures forall u :: i <= u < |cfg.uplinks| ==> HealthAt(cfg, Cycle(cfg, c, probes, files, i), u) == HealthAt(cfg, c, u)
  {
    hide Accepted, CoreOk, Alternates, CycleOne, BareRecovery;
    if i > 0 {
      CycleAlternates(cfg, c, probes, files, i - 1);
      CycleKeeps(cfg, c, probes, files, i - 1);
      var before, name := Cycle(cfg, c, probes, files, i - 1), NameOf(cfg, i - 1);
      var p, l := PingsOf(probes, name), Read(files, name);
      assert LinksOk(cfg, before) by { CoreIsLinked(cfg, before); }
      CycleOneAlternates(cfg, before, i - 1, p, l);
      CycleOneLinks(cfg, before, i - 1, p, l);
      forall n, f ensures BareBelow(cfg, c, probes, files, i, n, f) <==>
                          BareBelow(cfg, c, probes, files, i - 1, n, f)
                          || (n == name && BareRecovery(cfg, i - 1, HealthAt(cfg, before, i - 1), p, l, f)) {
      }
    }
  }

  lemma CoreIsLinked(cfg: Config, c: Core)
    requires CoreOk(cfg, c)
    ensures LinksOk(cfg, c) && RecordOk(cfg, c)
  {
  }

  // ---------------------------------------------------------------- a turn of the loop

  lemma PrimariesAlternate(d: DaemonState)
    ensures SameWans(d.core.trace, UpdatePrimaries(d).core.trace)
  {
    hide LastWan, Alternates, PrimaryIpv4, PrimaryIpv6;
    var p4 := NameAt(d.cfg, PrimaryIpv4(d.cfg, d.core.health));
    var p6 := NameAt(d.cfg, PrimaryIpv6(d.cfg, d.core.health));
    OtherEntry(d.core.trace, Fired(ChangeOf(d.cfg, V4, d.primary4, p4)));
    OtherEntry(ReportPrimary(d.cfg, d.core.trace, V4, d.primary4, p4), Fired(ChangeOf(d.cfg, V6, d.primary6, p6)));
  }

  lemma BeginAlternates(d: DaemonState, cfg: Config, files: Snapshot)
    requires Accepted(cfg) && Earned(d.core.trace)
    ensures forall n, f :: Alternates(Begin(d, cfg, files).core.trace, n, f) <==> Alternates(d.core.trace, n, f)
  {
    hide Accepted, LastWan, Earned, Alternates, RecordOk, LinksOk, Reconcile.ReconcileAll, UpdatePrimaries, SetupFwd;
    SetupKeeps(cfg, d.core.trace);
    Extended(d.core.trace, Init(cfg.recoveryThreshold));
    PassAlternates(cfg, Setup(cfg, d.core.trace), files, |cfg.uplinks|);
    PrimariesAlternate(d.(cfg := cfg, regenerated := false,
                          core := Reconcile.ReconcileAll(cfg, Setup(cfg, d.core.trace), files, |cfg.uplinks|)));
  }

  lemma ReloadAlternates(d: DaemonState, t: Turn)
    requires Boundary(d) && TurnOk(t)
    ensures forall n, f :: Alternates(MaybeReload(d, t).core.trace, n, f) <==> Alternates(d.core.trace, n, f)
  {
    hide Accepted, LastWan, Earned, Alternates, RecordOk, Begin;
    if d.reload && t.loaded.Some? {
      var d0 := d.(reload := false);
      BeginAlternates(d0, t.loaded.value, t.reloadFiles);
      OtherEntry(Begin(d0, t.loaded.value, t.reloadFiles).core.trace, Fired(Reloaded));
    }
  }

  lemma Usr1Alternates(d: DaemonState, t: Turn)
    requires Boundary(d)
    ensures forall n, f :: Alternates(MaybeReconcile(d, t).core.trace, n, f) <==> Alternates(d.core.trace, n, f)
  {
    hide Accepted, LastWan, Earned, Alternates, RecordOk, LinksOk;
    hide Reconcile.ReconcileAll, UpdatePrimaries, Regenerated, Signalled, MinGwRemaining;
    PassAlternates(d.cfg, d.core, t.usr1Files, |d.cfg.uplinks|);
    PrimariesAlternate(d.(reconcile := false, core := Reconcile.ReconcileAll(d.cfg, d.core, t.usr1Files, |d.cfg.uplinks|)));
  }

  /** In this turn a cycle is due and finds link (name, f) recovering bare. */
  ghost predicate BareCycle(d: DaemonState, t: Turn, name: string, f: Family) {
    ProbeDue(d, t.cycleTime) && BareBelow(d.cfg, d.core, t.probes, t.cycleFiles, |d.cfg.uplinks|, name, f)
  }

  lemma MaybeCycleAlternates(d: DaemonState, t: Turn)
    requires Boundary(d)
    ensures forall n, f :: Alternates(MaybeCycle(d, t).core.trace, n, f) <==> Alternates(d.core.trace, n, f) && !BareCycle(d, t, n, f)
  {
    hide Accepted, Alternates, CoreOk, Cycle, Monitored, UpdatePrimaries, BareBelow, LastWan, TiersCurrent;
    if ProbeDue(d, t.cycleTime) {
      var d1 := d.(lastProbe := Some(t.cycleTime), beats := d.beats + [CycleStart(t.cycleTime, d.cfg.interval)]);
      MonitoredCore(d1, t);
      CycleAlternates(d.cfg, d.core, t.probes, t.cycleFiles, |d.cfg.uplinks|);
      PrimariesAlternate(Monitored(d1, t));
    }
  }

  /** The state in which a turn comes to its cycle. */
  function BeforeCycle(d: DaemonState, t: Turn): DaemonState {
    MaybeReconcile(Deliver(MaybeUsr2(Deliver(MaybeReload(Wake(d, t), t), t.signals1), t), t.signals2), t)
  }

  lemma BeforeCycleBoundary(d: DaemonState, t: Turn)
    requires Boundary(d) && TurnOk(t)
    ensures Boundary(BeforeCycle(d, t))
  {
    hide CoreOk, TiersCurrent, PrimaryIpv4, PrimaryIpv6, Accepted, TurnOk;
    hide Wake, MaybeReload, MaybeUsr2, MaybeReconcile;
    WakeKeeps(d, t);
    ReloadKeeps(Wake(d, t), t);
    var d1 := Deliver(MaybeReload(Wake(d, t), t), t.signals1);
    Usr2Keeps(d1, t);
    ReconcileKeeps(Deliver(MaybeUsr2(d1, t), t.signals2), t);
  }

  lemma TurnIsCycle(d: DaemonState, t: Turn)
    ensures TurnOnce(d, t) == Deliver(MaybeCycle(BeforeCycle(d, t), t), t.signals3)
  {
    hide MaybeReload, MaybeUsr2, MaybeReconcile, MaybeCycle, Wake;
  }

  lemma TurnAlternates(d: DaemonState, t: Turn)
    requires Boundary(d) && TurnOk(t)
    ensures forall n, f :: Alternates(TurnOnce(d, t).core.trace, n, f) <==>
                           Alternates(d.core.trace, n, f) && !BareCycle(BeforeCycle(d, t), t, n, f)
  {
    hide CoreOk, TiersCurrent, PrimaryIpv4, PrimaryIpv6, Accepted, TurnOk, Alternates, BareCycle;
    hide Wake, MaybeReload, MaybeUsr2, MaybeReconcile, MaybeCycle;
    WakeQuiet(d, t);
    var d0 := Wake(d, t);
    WakeKeeps(d, t);
    ReloadAlternates(d0, t);
    ReloadKeeps(d0, t);
    var d1 := Deliver(MaybeReload(d0, t), t.signals1);
    Usr2Keeps(d1, t);
    var d2 := Deliver(MaybeUsr2(d1, t), t.signals2);
    Usr2Quiet(d1, t);
    Usr1Alternates(d2, t);
    ReconcileKeeps(d2, t);
    MaybeCycleAlternates(MaybeReconcile(d2, t), t);
  }

  lemma WakeQuiet(d: DaemonState, t: Turn)
    ensures Wake(d, t).core.trace == d.core.trace
  {
  }

  lemma Usr2Quiet(d: DaemonState, t: Turn)
    ensures MaybeUsr2(d, t).core == d.core
  {
    hide Regenerated, Signalled;
  }

  // ---------------------------------------------------------------- runs

  /** Turn `i` is taken and its cycle finds the link recovering bare. */
  ghost predicate BareTurn(d: DaemonState, script: seq<Turn>, i: int, name: string, f: Family) {
    && 0 <= i < |script| && Loop(d, script[..i]).running
    && BareCycle(BeforeCycle(Loop(d, script[..i]), script[i]), script[i], name, f)
  }

  lemma {:induction false} LoopAlternates(d: DaemonState, script: seq<Turn>, name: string, f: Family)
    requires Boundary(d) && ScriptOk(script)
    ensures Alternates(Loop(d, script).core.trace, name, f) <==>
            Alternates(d.core.trace, name, f) && forall i :: 0 <= i < |script| ==> !BareTurn(d, script, i, name, f)
  {
    hide Boundary, TurnOk, TurnOnce, Alternates, BareCycle, BeforeCycle;
    if script != [] {
      var last := |script| - 1;
      var most := script[..last];
      LoopAlternates(d, most, name, f);
      EveryBoundary(d, most);
      TurnAlternates(Loop(d, most), script[last]);
      forall i | 0 <= i < last ensures BareTurn(d, most, i, name, f) <==> BareTurn(d, script, i, name, f) {
        assert most[..i] == script[..i] && most[i] == script[i];
      }
      assert BareTurn(d, script, last, name, f)
             <==> Loop(d, most).running && BareCycle(BeforeCycle(Loop(d, most), script[last]), script[last], name, f);
    }
  }

  /** Of every run, link by link: the wan events alternate iff no cycle ever found the link recovering while its records
      were gone. */
  lemma {:induction false} EventsAlternateIff(cfg: Config, conf: Confs, signals: seq<(string, RadvdAction)>, files: Snapshot,
                                              script: seq<Turn>, name: string, f: Family)
    requires Accepted(cfg) && ScriptOk(script)
    ensures var start := Start(cfg, conf, signals, files);
            Alternates(Loop(start, script).core.trace, name, f) <==>
            forall i :: 0 <= i < |script| ==> !BareTurn(start, script, i, name, f)
  {
    hide Boundary, Begin, Loop, TurnOk, BareTurn, Accepted, Alternates;
    var d := Unstarted(cfg, conf, signals);
    StartBoundary(cfg, conf, signals, files);
    BeginAlternates(d, cfg, files);
    OtherEntry(Begin(d, cfg, files).core.trace, Fired(DaemonStart));
    LoopAlternates(Start(cfg, conf, signals, files), script, name, f);
    assert Alternates([], name, f) by { NoEvents(name, f); }
  }

  lemma NoEvents(name: string, f: Family)
    ensures Alternates([], name, f)
  {
  }
}
