/** The daemon's main loop (daemon.py) as a function of a script of what the environment does. */
module DaemonSpec {
  import opened Wrappers
  import opened Configuration
  import opened Naming
  import opened StateMachine
  import opened State
  import opened Shadow
  import opened Trace
  import opened Radvd
  import opened Reconcile

  /**
   * Timed history, with the settings in force: probe cycles, reloads, and the occasions on which radvd units are sent a
   * SIGHUP, that is on SIGUSR1, on SIGUSR2, and because an IPv6 link flipped.
   */
  datatype Beat =
    | CycleStart(time: real, interval: int)
    | ReloadDone
    | Usr1Hup(time: real, urgent: bool, minInterval: int, units: seq<string>)
    | Usr2Hup(time: real, units: seq<string>)
    | FlipHup(units: seq<string>)

  datatype DaemonState = DaemonState(
    cfg: Config,
    core: Core,
    primary4: Option<string>,
    primary6: Option<string>,
    reload: bool,
    reconcile: bool,
    sighup: bool,
    running: bool,
    lastSighup: real,
    lastProbe: Option<real>,
    conf: Confs,
    signals: seq<(string, RadvdAction)>,
    regenerated: bool,
    beats: seq<Beat>)

  datatype Signals = Signals(hup: bool, usr1: bool, usr2: bool, term: bool)

  /**
   * One turn of the loop as the environment shapes it: signals that arrive before each of the three checks and before
   * the sleep, IPv6 routes that expired, and what each action of the turn reads.
   */
  datatype Turn = Turn(
    gone: set<string>,
    signals0: Signals, signals1: Signals, signals2: Signals, signals3: Signals,
    loaded: Option<Config>, reloadFiles: Snapshot,
    usr2Files: Snapshot, usr2Time: real,
    usr1Files: Snapshot, gwFiles: Snapshot, usr1RadvdFiles: Snapshot, usr1Time: real,
    probes: Probing, cycleFiles: Snapshot, cycleRadvdFiles: Snapshot, cycleTime: real)

  function Deliver(d: DaemonState, s: Signals): DaemonState {
    d.(reload := d.reload || s.hup, reconcile := d.reconcile || s.usr1, sighup := d.sighup || s.usr2,
       running := d.running && !s.term)
  }

  // ---------------------------------------------------------------- primaries

  predicate Up4(cfg: Config, hs: Healths, u: int) {
    0 <= u < |cfg.uplinks| && HealthOf(hs, cfg.uplinks[u].name).v4.state.Up?
  }

  /** The UP uplink of lowest metric among the first `i`. */
  function BestUp4(cfg: Config, hs: Healths, i: nat): (r: Option<nat>)
    requires i <= |cfg.uplinks|
    ensures r.Some? ==> r.value < i && Up4(cfg, hs, r.value)
                        && forall v :: 0 <= v < i && Up4(cfg, hs, v) ==> cfg.uplinks[r.value].metric <= cfg.uplinks[v].metric
    ensures r.None? ==> forall v :: 0 <= v < i ==> !Up4(cfg, hs, v)
  {
    if i == 0 then None
    else
      var best := BestUp4(cfg, hs, i - 1);
      if Up4(cfg, hs, i - 1) && (best.None? || cfg.uplinks[i - 1].metric < cfg.uplinks[best.value].metric)
      then Some(i - 1) else best
  }

  function PrimaryIpv4(cfg: Config, hs: Healths): Option<nat> { BestUp4(cfg, hs, |cfg.uplinks|) }

  function NameAt(cfg: Config, u: Option<nat>): Option<string> {
    if u.Some? && u.value < |cfg.uplinks| then Some(cfg.uplinks[u.value].name) else None
  }

  /** Interface of the first uplink of that name from index `i` on; a former primary may be gone since a reload. */
  function IfaceFrom(cfg: Config, name: Option<string>, i: nat): (iface: Option<string>)
    requires i <= |cfg.uplinks|
    ensures iface.None? <==> forall u :: i <= u < |cfg.uplinks| ==> name != Some(cfg.uplinks[u].name)
    ensures iface.Some? ==> exists u :: i <= u < |cfg.uplinks| && name == Some(cfg.uplinks[u].name) && iface == Some(cfg.uplinks[u].iface)
    decreases |cfg.uplinks| - i
  {
    if i == |cfg.uplinks| then None
    else if name == Some(cfg.uplinks[i].name) then Some(cfg.uplinks[i].iface)
    else IfaceFrom(cfg, name, i + 1)
  }

  lemma {:induction false} IfaceOfUplink(cfg: Config, u: nat, i: nat)
    requires Accepted(cfg) && i <= u < |cfg.uplinks|
    ensures IfaceFrom(cfg, Some(cfg.uplinks[u].name), i) == Some(cfg.uplinks[u].iface)
    decreases u - i
  {
    if i < u {
      IfaceOfUplink(cfg, u, i + 1);
    }
  }

  function ChangeOf(cfg: Config, f: Family, from: Option<string>, to: Option<string>): Event {
    PrimaryChange(f, from, to, IfaceFrom(cfg, from, 0), IfaceFrom(cfg, to, 0))
  }

  function ReportPrimary(cfg: Config, t: History, f: Family, from: Option<string>, to: Option<string>): History {
    if from == to then t else t + [Fired(ChangeOf(cfg, f, from, to))]
  }

  function UpdatePrimaries(d: DaemonState): DaemonState {
    var p4 := NameAt(d.cfg, PrimaryIpv4(d.cfg, d.core.health));
    var p6 := NameAt(d.cfg, PrimaryIpv6(d.cfg, d.core.health));
    var t := ReportPrimary(d.cfg, ReportPrimary(d.cfg, d.core.trace, V4, d.primary4, p4), V6, d.primary6, p6);
    d.(core := d.core.(trace := t), primary4 := p4, primary6 := p6)
  }

  function FireEvent(d: DaemonState, e: Event): DaemonState { d.(core := Push(d.core, Fired(e))) }

  // ---------------------------------------------------------------- start and reload

  /** From `_init_states` to `_update_primary_uplinks`, common to `run` and `_do_reload`. */
  function Begin(d: DaemonState, cfg: Config, files: Snapshot): DaemonState {
    UpdatePrimaries(d.(cfg := cfg,
                       core := ReconcileAll(cfg, Setup(cfg, d.core.trace), files, |cfg.uplinks|),
                       regenerated := false))
  }

  /** Starting afresh depends on nothing that was installed or observed before. */
  lemma BeginForgets(d: DaemonState, e: DaemonState, cfg: Config, files: Snapshot)
    requires e == d.(cfg := e.cfg, core := e.core) && e.core.trace == d.core.trace
    ensures Begin(d, cfg, files) == Begin(e, cfg, files)
  {
    hide Setup, Reconcile.ReconcileAll, UpdatePrimaries;
  }

  lemma BeginKeepsBeats(d: DaemonState, cfg: Config, files: Snapshot)
    ensures Begin(d, cfg, files).beats == d.beats
  {
  }

  /** The object `__init__` makes, with the radvd files it finds. */
  function Unstarted(cfg: Config, conf: Confs, signals: seq<(string, RadvdAction)>): DaemonState {
    DaemonState(cfg, Core(map[], Owned(map[], map[], false, false), []), None, None,
                false, false, false, true, 0.0, None, conf, signals, false, [])
  }

  function Start(cfg: Config, conf: Confs, signals: seq<(string, RadvdAction)>, files: Snapshot): DaemonState {
    FireEvent(Begin(Unstarted(cfg, conf, signals), cfg, files), DaemonStart)
  }

  function DoReload(d: DaemonState, loaded: Option<Config>, files: Snapshot): DaemonState {
    match loaded
    case None => d.(reload := false)
    case Some(cfg) => Reloading(d.(reload := false), cfg, files)
  }

  function Reloading(d: DaemonState, cfg: Config, files: Snapshot): DaemonState {
    FireEvent(Begin(d, cfg, files).(lastProbe := None, beats := d.beats + [ReloadDone]), Reloaded)
  }

  lemma ReloadingForgets(d: DaemonState, e: DaemonState, cfg: Config, files: Snapshot)
    requires e == d.(cfg := e.cfg, core := e.core) && e.core.trace == d.core.trace
    ensures Reloading(d, cfg, files) == Reloading(e, cfg, files)
  {
    hide Begin;
    BeginForgets(d, e, cfg, files);
  }

  // ---------------------------------------------------------------- radvd

  function Regenerate(d: DaemonState, files: Snapshot, action: RadvdAction): DaemonState {
    d.(conf := Regenerated(d.cfg, d.core.health, files, d.conf, |d.cfg.uplinks|),
       signals := d.signals + Signalled(d.cfg, action, |d.cfg.uplinks|),
       regenerated := true)
  }

  function AllUnits(cfg: Config): seq<string> { PdUnits(cfg, |cfg.uplinks|) }

  function DoUsr2(d: DaemonState, files: Snapshot, now: real): DaemonState {
    Regenerate(d.(sighup := false), files, Sighup).(lastSighup := now, beats := d.beats + [Usr2Hup(now, AllUnits(d.cfg))])
  }

  /** The upstream advertisement of uplink `u` ends in `r` seconds. */
  ghost predicate EndsIn(cfg: Config, files: Snapshot, u: int, r: int) {
    && 0 <= u < |cfg.uplinks| && Ipv6Uplink(cfg.uplinks[u])
    && var l := Read(files, cfg.uplinks[u].name);
       l.ra.Some? && l.ra.value.lifetime != 0 && r == NonNegative(l.ra.value.lifetime - (l.now - l.ra.value.timestamp))
  }

  /** Least remaining lifetime of a finite upstream advertisement among the first `i` uplinks. */
  function MinGwRemaining(cfg: Config, files: Snapshot, i: nat): (min: Option<int>)
    requires i <= |cfg.uplinks|
    ensures min.Some? ==>
              && (exists u :: 0 <= u < i && EndsIn(cfg, files, u, min.value))
              && (forall u, r :: 0 <= u < i && EndsIn(cfg, files, u, r) ==> min.value <= r)
    ensures min.None? ==> forall u, r :: 0 <= u < i ==> !EndsIn(cfg, files, u, r)
  {
    if i == 0 then None
    else
      var before := MinGwRemaining(cfg, files, i - 1);
      var l := Read(files, cfg.uplinks[i - 1].name);
      if !Ipv6Uplink(cfg.uplinks[i - 1]) || l.ra.None? || l.ra.value.lifetime == 0 then before
      else
        var r := l.ra.value.Remaining(l.now);
        assert EndsIn(cfg, files, i - 1, r);
        if before.None? || r < before.value then Some(r) else before
  }

  function Reconciled(d: DaemonState, files: Snapshot): DaemonState {
    UpdatePrimaries(d.(reconcile := false, core := ReconcileAll(d.cfg, d.core, files, |d.cfg.uplinks|)))
  }

  /** The files are rewritten; radvd is signalled if the last signal is long enough ago or an advertisement is about to expire. */
  function Refreshed(d: DaemonState, gwFiles: Snapshot, files: Snapshot, now: real): DaemonState {
    var minInterval := d.cfg.radvdMinInterval;
    var due := now - d.lastSighup >= minInterval as real;
    var r := MinGwRemaining(d.cfg, gwFiles, |d.cfg.uplinks|);
    if due || (r.Some? && r.value <= minInterval) then
      Regenerate(d, files, Sighup).(lastSighup := now, beats := d.beats + [Usr1Hup(now, !due, minInterval, AllUnits(d.cfg))])
    else Regenerate(d, files, Write)
  }

  function DoReconcile(d: DaemonState, t: Turn): DaemonState {
    Refreshed(Reconciled(d, t.usr1Files), t.gwFiles, t.usr1RadvdFiles, t.usr1Time)
  }

  // ---------------------------------------------------------------- probe cycle

  /** Probing, reconciling and reporting; radvd hears of IPv6 changes. */
  function Monitored(d: DaemonState, t: Turn): DaemonState {
    var n := |d.cfg.uplinks|;
    var d1 := d.(core := Cycle(d.cfg, d.core, t.probes, t.cycleFiles, n));
    if AnyIpv6Change(d.cfg, d.core, t.probes, t.cycleFiles, n) then
      Regenerate(d1, t.cycleRadvdFiles, Sighup).(beats := d.beats + [FlipHup(AllUnits(d.cfg))])
    else d1
  }

  function RunCycle(d: DaemonState, t: Turn): DaemonState { UpdatePrimaries(Monitored(d, t)) }

  predicate ProbeDue(d: DaemonState, now: real) {
    d.lastProbe.None? || now - d.lastProbe.value >= d.cfg.interval as real
  }

  function MaybeCycle(d: DaemonState, t: Turn): DaemonState {
    if ProbeDue(d, t.cycleTime) then
      RunCycle(d.(lastProbe := Some(t.cycleTime), beats := d.beats + [CycleStart(t.cycleTime, d.cfg.interval)]), t)
    else d
  }

  // ---------------------------------------------------------------- the loop

  function Wake(d: DaemonState, t: Turn): DaemonState {
    Deliver(d.(core := d.core.(own := ExpireOwned(d.core.own, t.gone))), t.signals0)
  }

  function MaybeReload(d: DaemonState, t: Turn): DaemonState {
    if d.reload then DoReload(d, t.loaded, t.reloadFiles) else d
  }

  function MaybeUsr2(d: DaemonState, t: Turn): DaemonState {
    if d.sighup then DoUsr2(d, t.usr2Files, t.usr2Time) else d
  }

  function MaybeReconcile(d: DaemonState, t: Turn): DaemonState {
    if d.reconcile then DoReconcile(d, t) else d
  }

  function TurnOnce(d: DaemonState, t: Turn): DaemonState {
    var d1 := MaybeReload(Wake(d, t), t);
    var d2 := MaybeUsr2(Deliver(d1, t.signals1), t);
    var d3 := MaybeReconcile(Deliver(d2, t.signals2), t);
    Deliver(MaybeCycle(d3, t), t.signals3)
  }

  /** The loop leaves off at the first turn it finds the daemon told to stop. */
  function Loop(d: DaemonState, script: seq<Turn>): DaemonState {
    if script == [] then d
    else
      var before := Loop(d, script[..|script| - 1]);
      if before.running then TurnOnce(before, script[|script| - 1]) else before
  }

  lemma {:induction false} StaysStopped(d: DaemonState, script: seq<Turn>, i: nat)
    requires i <= |script| && (i < |script| ==> !Loop(d, script[..i]).running)
    ensures Loop(d, script) == Loop(d, script[..i])
    decreases |script|
  {
    if i < |script| {
      var most := script[..|script| - 1];
      assert most[..i] == script[..i];
      StaysStopped(d, most, i);
    } else {
      assert script[..i] == script;
    }
  }

  /** `_cleanup`: everything is taken down, and radvd is left advertising as if all uplinks were UP. */
  function Cleanup(d: DaemonState, files: Snapshot): DaemonState {
    var all := map s | s in Names(d.cfg) :: Health(FRESH, FRESH);
    FireEvent(d.(core := d.core.(own := NothingOwned(d.cfg)),
                 conf := Regenerated(d.cfg, all, files, d.conf, |d.cfg.uplinks|),
                 signals := d.signals + Signalled(d.cfg, Sighup, |d.cfg.uplinks|)),
              DaemonStop)
  }
}
