/**
 * What one turn of the loop does when, and when radvd is signalled: a unit is sent a SIGHUP on SIGUSR2, on SIGUSR1 unless
 * the limiter holds it back, and when probing flips an IPv6 link, and on no other occasion.
 */
module Sighups {
  import opened Wrappers
  import opened Configuration
  import opened StateMachine
  import opened State
  import opened Radvd
  import opened Reconcile
  import opened Invariants
  import opened DaemonSpec
  import opened Runs
  import opened Alternation
  import opened Rates

  /** The units signalled on an occasion. */
  function UnitsOf(b: Beat): seq<string> {
    match b
    case Usr1Hup(_, _, _, units) => units
    case Usr2Hup(_, units) => units
    case FlipHup(units) => units
    case _ => []
  }

  /** The SIGHUPs of a history. */
  function HupsOf(bs: seq<Beat>): seq<(string, RadvdAction)> {
    if bs == [] then [] else HupsOf(bs[..|bs| - 1]) + Hups(UnitsOf(bs[|bs| - 1]))
  }

  lemma {:induction false} HupsConcat(a: seq<Beat>, b: seq<Beat>)
    ensures HupsOf(a + b) == HupsOf(a) + HupsOf(b)
  {
    hide Hups, UnitsOf, HupsOf;
    if b == [] {
      assert a + b == a;
      NoHups();
    } else {
      var most, last := b[..|b| - 1], b[|b| - 1];
      HupsConcat(a, most);
      HupsLast(b);
      HupsLast(a + b);
      assert (a + b)[..|a + b| - 1] == a + most;
      assert HupsOf(a) + (HupsOf(most) + Hups(UnitsOf(last))) == HupsOf(a) + HupsOf(most) + Hups(UnitsOf(last));
    }
  }

  lemma {:induction false} HupsLast(bs: seq<Beat>)
    requires bs != []
    ensures HupsOf(bs) == HupsOf(bs[..|bs| - 1]) + Hups(UnitsOf(bs[|bs| - 1]))
  {
  }

  lemma HupsOne(b: Beat)
    ensures HupsOf([b]) == Hups(UnitsOf(b))
  {
    assert [b][..0] == [];
  }

  // ---------------------------------------------------------------- what a turn does, told from its signals and clocks

  /** A reload was asked for and the new configuration is acceptable. */
  predicate Loading(d: DaemonState, t: Turn) { (d.reload || t.signals0.hup) && t.loaded.Some? }

  function ConfigOf(d: DaemonState, t: Turn): Config { if Loading(d, t) then t.loaded.value else d.cfg }

  function ReloadBeats(d: DaemonState, t: Turn): seq<Beat> { if Loading(d, t) then [ReloadDone] else [] }

  function Usr2Beats(d: DaemonState, t: Turn): seq<Beat> {
    if d.sighup || t.signals0.usr2 || t.signals1.usr2 then [Usr2Hup(t.usr2Time, AllUnits(ConfigOf(d, t)))] else []
  }

  /** The last SIGHUP on request is long enough ago. */
  predicate HupDue(d: DaemonState, t: Turn) {
    var last := if Usr2Beats(d, t) == [] then d.lastSighup else t.usr2Time;
    t.usr1Time - last >= ConfigOf(d, t).radvdMinInterval as real
  }

  /** An upstream advertisement is about to expire. */
  ghost predicate Expiring(cfg: Config, files: Snapshot) {
    exists u, r :: EndsIn(cfg, files, u, r) && r <= cfg.radvdMinInterval
  }

  ghost function Usr1Beats(d: DaemonState, t: Turn): seq<Beat> {
    if (d.reconcile || t.signals0.usr1 || t.signals1.usr1 || t.signals2.usr1) && (HupDue(d, t) || Expiring(ConfigOf(d, t), t.gwFiles))
    then [Usr1Hup(t.usr1Time, !HupDue(d, t), ConfigOf(d, t).radvdMinInterval, AllUnits(ConfigOf(d, t)))] else []
  }

  /** A cycle runs iff the last one started an interval ago; at once after a reload. */
  function CycleBeats(d: DaemonState, t: Turn): seq<Beat> {
    if Loading(d, t) || d.lastProbe.None? || t.cycleTime - d.lastProbe.value >= ConfigOf(d, t).interval as real
    then [CycleStart(t.cycleTime, ConfigOf(d, t).interval)] else []
  }

  /** The probe result flips the IPv6 link of uplink `u`. */
  predicate Flips(cfg: Config, c: Core, probes: Probing, u: int) {
    && 0 <= u < |cfg.uplinks| && (cfg.uplinks[u].ipv6Pd || cfg.uplinks[u].iaNa)
    && var l := HealthAt(cfg, c, u).v6;
       Step(l, PingsOf(probes, cfg.uplinks[u].name).v6, cfg.failureThreshold, cfg.recoveryThreshold).state != l.state
  }

  ghost predicate SomeFlip(cfg: Config, c: Core, probes: Probing) { exists u :: Flips(cfg, c, probes, u) }

  ghost function FlipBeats(d: DaemonState, t: Turn): seq<Beat> {
    if CycleBeats(d, t) != [] && SomeFlip(ConfigOf(d, t), BeforeCycle(d, t).core, t.probes)
    then [FlipHup(AllUnits(ConfigOf(d, t)))] else []
  }

  /** Everything a turn does that is timed, in order. */
  ghost function BeatsOf(d: DaemonState, t: Turn): seq<Beat> {
    ReloadBeats(d, t) + Usr2Beats(d, t) + Usr1Beats(d, t) + CycleBeats(d, t) + FlipBeats(d, t)
  }

  // ---------------------------------------------------------------- the steps

  lemma WakeStep(d: DaemonState, t: Turn)
    ensures var r := Wake(d, t);
            r == d.(core := r.core, reload := d.reload || t.signals0.hup, reconcile := d.reconcile || t.signals0.usr1,
                    sighup := d.sighup || t.signals0.usr2, running := d.running && !t.signals0.term)
  {
    hide Shadow.ExpireOwned;
  }

  lemma BeginStep(d: DaemonState, cfg: Config, files: Snapshot)
    ensures var r := Begin(d, cfg, files);
            r == d.(cfg := cfg, core := r.core, primary4 := r.primary4, primary6 := r.primary6, regenerated := false)
  {
    hide Reconcile.ReconcileAll, Setup, PrimaryIpv4, PrimaryIpv6, ReportPrimary, NameAt;
  }

  lemma ReloadStep(d: DaemonState, t: Turn)
    ensures var r := MaybeReload(d, t); var loading := d.reload && t.loaded.Some?;
            && r.cfg == (if loading then t.loaded.value else d.cfg) && r.signals == d.signals
            && r.beats == d.beats + (if loading then [ReloadDone] else [])
            && r.lastSighup == d.lastSighup && r.lastProbe == (if loading then None else d.lastProbe)
            && !r.reload && r.sighup == d.sighup && r.reconcile == d.reconcile && r.running == d.running
  {
    hide Begin;
    if d.reload && t.loaded.Some? {
      BeginStep(d.(reload := false), t.loaded.value, t.reloadFiles);
    }
  }

  /** Rewriting the files with a signal sends one SIGHUP to every unit; without, none. */
  lemma RegenerateStep(d: DaemonState, files: Snapshot, b: Beat)
    requires UnitsOf(b) == AllUnits(d.cfg)
    ensures var r := Regenerate(d, files, Sighup);
            r == d.(conf := r.conf, regenerated := true, signals := d.signals + HupsOf([b]))
    ensures var r := Regenerate(d, files, Write); r == d.(conf := r.conf, regenerated := true)
  {
    hide Regenerated, Signalled, Hups, UnitsOf;
    SignalledOnce(d.cfg, |d.cfg.uplinks|);
    HupsOne(b);
    assert d.signals + [] == d.signals;
  }

  lemma Usr2Step(d: DaemonState, t: Turn)
    ensures var r := MaybeUsr2(d, t); var bs := if d.sighup then [Usr2Hup(t.usr2Time, AllUnits(d.cfg))] else [];
            && r == d.(sighup := false, lastSighup := if d.sighup then t.usr2Time else d.lastSighup, beats := d.beats + bs,
                       signals := d.signals + HupsOf(bs), conf := r.conf, regenerated := r.regenerated)
  {
    hide Regenerate, AllUnits;
    RegenerateStep(d.(sighup := false), t.usr2Files, Usr2Hup(t.usr2Time, AllUnits(d.cfg)));
  }

  /** The limiter of the daemon is the one described. */
  lemma RefreshStep(d: DaemonState, t: Turn)
    ensures var r := Refreshed(d, t.gwFiles, t.usr1RadvdFiles, t.usr1Time);
            var due := t.usr1Time - d.lastSighup >= d.cfg.radvdMinInterval as real;
            var urgent := Expiring(d.cfg, t.gwFiles);
            var bs := if due || urgent then [Usr1Hup(t.usr1Time, !due, d.cfg.radvdMinInterval, AllUnits(d.cfg))] else [];
            && r == d.(lastSighup := if due || urgent then t.usr1Time else d.lastSighup, beats := d.beats + bs,
                       signals := d.signals + HupsOf(bs), conf := r.conf, regenerated := r.regenerated)
  {
    hide Regenerate, AllUnits, Expiring, MinGwRemaining;
    var due := t.usr1Time - d.lastSighup >= d.cfg.radvdMinInterval as real;
    RegenerateStep(d, t.usr1RadvdFiles, Usr1Hup(t.usr1Time, !due, d.cfg.radvdMinInterval, AllUnits(d.cfg)));
    LeastMeans(d.cfg, t.gwFiles);
  }

  lemma {:induction false} LeastMeans(cfg: Config, files: Snapshot)
    ensures var min := MinGwRemaining(cfg, files, |cfg.uplinks|);
            (min.Some? && min.value <= cfg.radvdMinInterval) <==> Expiring(cfg, files)
  {
    var min := MinGwRemaining(cfg, files, |cfg.uplinks|);
    assert forall u, s :: EndsIn(cfg, files, u, s) ==> 0 <= u < |cfg.uplinks|;
    hide EndsIn;
  }

  lemma ReconciledFrame(d: DaemonState, files: Snapshot)
    ensures var r := Reconciled(d, files);
            r == d.(reconcile := false, core := r.core, primary4 := r.primary4, primary6 := r.primary6)
  {
    hide Reconcile.ReconcileAll, PrimaryIpv4, PrimaryIpv6, ReportPrimary, NameAt;
  }

  lemma Usr1Step(d: DaemonState, t: Turn)
    ensures var r := MaybeReconcile(d, t);
            var due := t.usr1Time - d.lastSighup >= d.cfg.radvdMinInterval as real;
            var urgent := Expiring(d.cfg, t.gwFiles);
            var bs := if d.reconcile && (due || urgent) then [Usr1Hup(t.usr1Time, !due, d.cfg.radvdMinInterval, AllUnits(d.cfg))]
                      else [];
            && r.cfg == d.cfg && r.lastProbe == d.lastProbe && !r.reconcile && r.reload == d.reload && r.sighup == d.sighup
            && r.running == d.running && r.beats == d.beats + bs && r.signals == d.signals + HupsOf(bs)
  {
    hide Reconciled, Refreshed, Expiring, AllUnits;
    if d.reconcile {
      ReconciledFrame(d, t.usr1Files);
      RefreshStep(Reconciled(d, t.usr1Files), t);
    }
  }

  lemma {:induction false} FlipIff(cfg: Config, c: Core, probes: Probing, files: Snapshot, i: nat)
    requires Accepted(cfg) && i <= |cfg.uplinks| && CoreOk(cfg, c)
    ensures AnyIpv6Change(cfg, c, probes, files, i) <==> exists u :: 0 <= u < i && Flips(cfg, c, probes, u)
  {
    hide Accepted, CoreOk, Cycle, Step;
    if i > 0 {
      FlipIff(cfg, c, probes, files, i - 1);
      CycleAlternates(cfg, c, probes, files, i - 1);
      assert Changed(cfg, Cycle(cfg, c, probes, files, i - 1), i - 1, PingsOf(probes, NameOf(cfg, i - 1)), V6) <==>
             Flips(cfg, c, probes, i - 1);
    }
  }

  lemma CycleStep(d: DaemonState, t: Turn)
    requires Boundary(d)
    ensures var r := MaybeCycle(d, t);
            var bs := if ProbeDue(d, t.cycleTime) then [CycleStart(t.cycleTime, d.cfg.interval)] else [];
            var fs := if ProbeDue(d, t.cycleTime) && SomeFlip(d.cfg, d.core, t.probes)
                      then [FlipHup(AllUnits(d.cfg))] else [];
            && r.cfg == d.cfg && r.reload == d.reload && r.sighup == d.sighup && r.reconcile == d.reconcile && r.running == d.running
            && r.beats == d.beats + bs + fs && r.signals == d.signals + HupsOf(fs)
  {
    hide CoreOk, TiersCurrent, Monitored, UpdatePrimaries, Accepted, AllUnits, SomeFlip;
    if ProbeDue(d, t.cycleTime) {
      var d1 := d.(lastProbe := Some(t.cycleTime), beats := d.beats + [CycleStart(t.cycleTime, d.cfg.interval)]);
      MonitoredStep(d1, t);
      UpdateStep(Monitored(d1, t));
    }
  }

  lemma {:induction false} SomeFlipIff(cfg: Config, c: Core, probes: Probing, files: Snapshot)
    requires Accepted(cfg) && CoreOk(cfg, c)
    ensures AnyIpv6Change(cfg, c, probes, files, |cfg.uplinks|) <==> SomeFlip(cfg, c, probes)
  {
    hide Accepted, CoreOk, AnyIpv6Change;
    FlipIff(cfg, c, probes, files, |cfg.uplinks|);
    assert forall u :: Flips(cfg, c, probes, u) ==> 0 <= u < |cfg.uplinks|;
  }

  lemma MonitoredStep(d: DaemonState, t: Turn)
    requires Accepted(d.cfg) && CoreOk(d.cfg, d.core)
    ensures var r := Monitored(d, t);
            var fs := if SomeFlip(d.cfg, d.core, t.probes) then [FlipHup(AllUnits(d.cfg))] else [];
            r == d.(core := r.core, conf := r.conf, regenerated := r.regenerated, beats := d.beats + fs, signals := d.signals + HupsOf(fs))
  {
    hide CoreOk, Accepted, Cycle, AnyIpv6Change, Regenerate, AllUnits, SomeFlip;
    SomeFlipIff(d.cfg, d.core, t.probes, t.cycleFiles);
    RegenerateStep(d.(core := Cycle(d.cfg, d.core, t.probes, t.cycleFiles, |d.cfg.uplinks|)), t.cycleRadvdFiles,
                   FlipHup(AllUnits(d.cfg)));
  }

  lemma UpdateStep(d: DaemonState)
    ensures var r := UpdatePrimaries(d); r == d.(core := r.core, primary4 := r.primary4, primary6 := r.primary6)
  {
    hide PrimaryIpv4, PrimaryIpv6, ReportPrimary, NameAt;
  }

  lemma BeforeStep(d: DaemonState, t: Turn)
    ensures var r := BeforeCycle(d, t);
            && r.cfg == ConfigOf(d, t) && r.lastProbe == (if Loading(d, t) then None else d.lastProbe)
            && r.beats == d.beats + ReloadBeats(d, t) + Usr2Beats(d, t) + Usr1Beats(d, t)
            && r.signals == d.signals + HupsOf(Usr2Beats(d, t)) + HupsOf(Usr1Beats(d, t))
            && r.reload == (t.signals1.hup || t.signals2.hup) && r.sighup == t.signals2.usr2 && !r.reconcile
            && r.running == (d.running && !(t.signals0.term || t.signals1.term || t.signals2.term))
  {
    hide MaybeReload, MaybeUsr2, MaybeReconcile, Wake, AllUnits, Expiring, HupsOf;
    WakeStep(d, t);
    ReloadStep(Wake(d, t), t);
    var d1 := Deliver(MaybeReload(Wake(d, t), t), t.signals1);
    Usr2Step(d1, t);
    var d2 := Deliver(MaybeUsr2(d1, t), t.signals2);
    Usr1Step(d2, t);
  }

  /** Reloads and cycles send nothing of themselves. */
  lemma TurnHups(d: DaemonState, t: Turn)
    ensures HupsOf(BeatsOf(d, t)) == HupsOf(Usr2Beats(d, t)) + HupsOf(Usr1Beats(d, t)) + HupsOf(FlipBeats(d, t))
  {
    hide HupsOf, Usr2Beats, Usr1Beats, FlipBeats, Expiring;
    var r, u2, u1, c, f := ReloadBeats(d, t), Usr2Beats(d, t), Usr1Beats(d, t), CycleBeats(d, t), FlipBeats(d, t);
    HupsConcat(r + u2 + u1 + c, f);
    HupsConcat(r + u2 + u1, c);
    HupsConcat(r + u2, u1);
    HupsConcat(r, u2);
    HupsOne(ReloadDone);
    HupsOne(CycleStart(t.cycleTime, ConfigOf(d, t).interval));
    NoHups();
  }

  lemma NoHups()
    ensures HupsOf([]) == []
  {
  }

  /**
   * One turn: what is done, in which order, and which SIGHUPs are sent, from the signals that came, the clocks, the
   * advertisements and the probe results. A signal that came too late for this turn stays pending, and no other does.
   */
  lemma TurnSchedule(d: DaemonState, t: Turn)
    requires Boundary(d) && TurnOk(t)
    ensures var r := TurnOnce(d, t);
            && r.cfg == ConfigOf(d, t) && r.beats == d.beats + BeatsOf(d, t) && r.signals == d.signals + HupsOf(BeatsOf(d, t))
            && r.reload == (t.signals1.hup || t.signals2.hup || t.signals3.hup)
            && r.sighup == (t.signals2.usr2 || t.signals3.usr2) && r.reconcile == t.signals3.usr1
            && r.running == (d.running && !(t.signals0.term || t.signals1.term || t.signals2.term || t.signals3.term))
  {
    hide Boundary, TurnOk, TurnOnce, MaybeCycle, BeforeCycle, AllUnits, SomeFlip, HupsOf, Usr1Beats, Usr2Beats;
    BeforeStep(d, t);
    BeforeCycleBoundary(d, t);
    TurnIsCycle(d, t);
    CycleStep(BeforeCycle(d, t), t);
    TurnHups(d, t);
  }

  // ---------------------------------------------------------------- runs

  ghost predicate AllOnce(bs: seq<Beat>) { forall k :: 0 <= k < |bs| ==> NoRepeats(UnitsOf(bs[k])) }

  /** The SIGHUPs sent since `signals` are exactly those of the history, each unit at most once on an occasion. */
  ghost predicate Tied(d: DaemonState, signals: seq<(string, RadvdAction)>) {
    d.signals == signals + HupsOf(d.beats) && AllOnce(d.beats)
  }

  /** Every occasion in `bs` signals all of `units` or none. */
  ghost predicate AllOrNone(bs: seq<Beat>, units: seq<string>) {
    forall k :: 0 <= k < |bs| ==> UnitsOf(bs[k]) == [] || UnitsOf(bs[k]) == units
  }

  lemma AllOrNoneConcat(a: seq<Beat>, b: seq<Beat>, units: seq<string>)
    requires AllOrNone(a, units) && AllOrNone(b, units)
    ensures AllOrNone(a + b, units)
  {
    hide UnitsOf;
  }

  lemma PartsSignal(d: DaemonState, t: Turn)
    ensures var units := AllUnits(ConfigOf(d, t));
            && AllOrNone(ReloadBeats(d, t), units) && AllOrNone(Usr2Beats(d, t), units) && AllOrNone(Usr1Beats(d, t), units)
            && AllOrNone(CycleBeats(d, t), units) && AllOrNone(FlipBeats(d, t), units)
  {
    hide AllUnits, ConfigOf, HupDue, Expiring, SomeFlip, Loading;
  }

  lemma TurnOnceEach(d: DaemonState, t: Turn)
    requires Accepted(ConfigOf(d, t))
    ensures AllOnce(BeatsOf(d, t))
  {
    hide Accepted, ReloadBeats, Usr2Beats, Usr1Beats, CycleBeats, FlipBeats, PdUnits, UnitsOf, NoRepeats, ConfigOf;
    hide AllOrNone;
    var r, u2, u1, c, f := ReloadBeats(d, t), Usr2Beats(d, t), Usr1Beats(d, t), CycleBeats(d, t), FlipBeats(d, t);
    var units := AllUnits(ConfigOf(d, t));
    PartsSignal(d, t);
    AllOrNoneConcat(r, u2, units);
    AllOrNoneConcat(r + u2, u1, units);
    AllOrNoneConcat(r + u2 + u1, c, units);
    AllOrNoneConcat(r + u2 + u1 + c, f, units);
    PdUnitsOnce(ConfigOf(d, t), |ConfigOf(d, t).uplinks|);
    OnceEach(BeatsOf(d, t), units);
  }

  lemma OnceEach(bs: seq<Beat>, units: seq<string>)
    requires AllOrNone(bs, units) && NoRepeats(units)
    ensures AllOnce(bs)
  {
  }

  lemma TurnTied(d: DaemonState, t: Turn, signals: seq<(string, RadvdAction)>)
    requires Boundary(d) && TurnOk(t) && Tied(d, signals)
    ensures Tied(TurnOnce(d, t), signals)
  {
    hide CoreOk, TiersCurrent, PrimariesOk, Accepted, TurnOnce, BeatsOf, HupsOf, NoRepeats;
    TurnSchedule(d, t);
    HupsConcat(d.beats, BeatsOf(d, t));
    TurnOnceEach(d, t);
  }

  lemma {:induction false} LoopTied(d: DaemonState, script: seq<Turn>, signals: seq<(string, RadvdAction)>)
    requires Boundary(d) && ScriptOk(script) && Tied(d, signals)
    ensures Tied(Loop(d, script), signals)
  {
    hide Boundary, TurnOk, TurnOnce, Tied;
    if script != [] {
      var most := script[..|script| - 1];
      LoopTied(d, most, signals);
      EveryBoundary(d, most);
      if Loop(d, most).running {
        TurnTied(Loop(d, most), script[|script| - 1], signals);
      }
    }
  }

  lemma StartTied(cfg: Config, conf: Confs, signals: seq<(string, RadvdAction)>, files: Snapshot)
    ensures Tied(Start(cfg, conf, signals, files), signals)
  {
    hide Begin;
    BeginStep(Unstarted(cfg, conf, signals), cfg, files);
    NoHups();
  }

  /** Of every run: radvd is sent nothing but the SIGHUPs of the timed history. */
  lemma {:induction false} SighupsOfRuns(cfg: Config, conf: Confs, signals: seq<(string, RadvdAction)>, files: Snapshot, script: seq<Turn>)
    requires Accepted(cfg) && ScriptOk(script)
    ensures var r := Loop(Start(cfg, conf, signals, files), script); r.signals == signals + HupsOf(r.beats) && AllOnce(r.beats)
  {
    hide Boundary, Loop, Start, TurnOk, Accepted, HupsOf;
    StartBoundary(cfg, conf, signals, files);
    StartTied(cfg, conf, signals, files);
    LoopTied(Start(cfg, conf, signals, files), script, signals);
  }

  // ---------------------------------------------------------------- how many

  /** The signals sent to unit `s`. */
  function Sent(signals: seq<(string, RadvdAction)>, s: string): nat {
    if signals == [] then 0
    else Sent(signals[..|signals| - 1], s) + if signals[|signals| - 1].0 == s then 1 else 0
  }

  lemma {:induction false} SentConcat(a: seq<(string, RadvdAction)>, b: seq<(string, RadvdAction)>, s: string)
    ensures Sent(a + b, s) == Sent(a, s) + Sent(b, s)
  {
    if b == [] {
      assert a + b == a;
    } else {
      SentConcat(a, b[..|b| - 1], s);
      assert (a + b)[..|a + b| - 1] == a + b[..|b| - 1];
    }
  }

  lemma {:induction false} SentOnce(units: seq<string>, s: string)
    requires NoRepeats(units)
    ensures Sent(Hups(units), s) == if s in units then 1 else 0
  {
    if units != [] {
      var most := units[..|units| - 1];
      SentOnce(most, s);
      assert Hups(units)[..|units| - 1] == Hups(most);
      assert s in units <==> s in most || s == units[|units| - 1];
    }
  }

  /** The occasions that the limiter does not hold back. */
  predicate Unlimited(b: Beat) { (b.Usr1Hup? && b.urgent) || b.Usr2Hup? || b.FlipHup? }

  function Unlimiteds(bs: seq<Beat>, i: nat, j: nat): nat
    requires i <= j <= |bs|
  {
    if i == j then 0 else Unlimiteds(bs, i, j - 1) + if Unlimited(bs[j - 1]) then 1 else 0
  }

  lemma {:induction false} SentBound(bs: seq<Beat>, i: nat, j: nat, s: string)
    requires i <= j <= |bs| && AllOnce(bs)
    ensures Sent(HupsOf(bs[i..j]), s) <= OrdinaryHups(bs, i, j) + Unlimiteds(bs, i, j)
  {
    hide HupsOf, Sent, NoRepeats, Ordinary, Unlimited, UnitsOf;
    if i == j {
      assert bs[i..j] == [];
      NoHups();
      NoneSent(s);
    } else {
      var most, b := bs[i..j - 1], bs[j - 1];
      SentBound(bs, i, j - 1, s);
      assert bs[i..j] == most + [b];
      HupsConcat(most, [b]);
      SentConcat(HupsOf(most), HupsOf([b]), s);
      SentOn(b, s);
    }
  }

  lemma {:induction false} NoneSent(s: string)
    ensures Sent([], s) == 0
  {
  }

  lemma {:induction false} SentOn(b: Beat, s: string)
    requires NoRepeats(UnitsOf(b))
    ensures Sent(HupsOf([b]), s) <= (if Ordinary(b) then 1 else 0) + (if Unlimited(b) then 1 else 0)
  {
    hide NoRepeats, HupsOf, Hups;
    HupsOne(b);
    SentOnce(UnitsOf(b), s);
  }

  /**
   * The rate of signals, in every run: in a stretch of the history whose limited occasions lie within `W` seconds, a unit
   * is sent at most W/minInterval + 1 SIGHUPs, and one more for each occasion that is not limited.
   */
  lemma {:induction false} RadvdRate(cfg: Config, conf: Confs, signals: seq<(string, RadvdAction)>, files: Snapshot, script: seq<Turn>,
                                     i: nat, j: nat, a: real, W: int, M: nat, s: string)
    requires Accepted(cfg) && ScriptOk(script) && Ticking(script) && M > 0 && W >= 0
    requires var bs := Loop(Start(cfg, conf, signals, files), script).beats;
             && i <= j <= |bs| && HupsFrom(bs, i, j, a, M)
             && forall k :: i <= k < j && Ordinary(bs[k]) ==> bs[k].time <= a + W as real
    ensures var r := Loop(Start(cfg, conf, signals, files), script);
            && r.signals == signals + HupsOf(r.beats[..i]) + HupsOf(r.beats[i..j]) + HupsOf(r.beats[j..])
            && Sent(HupsOf(r.beats[i..j]), s) <= W / M + 1 + Unlimiteds(r.beats, i, j)
  {
    hide Loop, Start, TurnOk, Accepted, HupsOf, Spaced, Chronological, AllOnce, Ticking, HupsFrom, Sent;
    var r := Loop(Start(cfg, conf, signals, files), script);
    SighupsOfRuns(cfg, conf, signals, files, script);
    RatesOfRuns(cfg, conf, signals, files, script);
    OrdinaryRate(r.beats, i, j, a, W, M, EndOf(script));
    SentBound(r.beats, i, j, s);
    assert r.beats == r.beats[..i] + r.beats[i..j] + r.beats[j..];
    HupsConcat(r.beats[..i] + r.beats[i..j], r.beats[j..]);
    HupsConcat(r.beats[..i], r.beats[i..j]);
  }
}
