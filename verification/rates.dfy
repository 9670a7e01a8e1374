/** How often probing starts and radvd is signalled, whatever signals arrive. */
module Rates {
  import opened Wrappers
  import opened Configuration
  import opened State
  import opened Radvd
  import opened Reconcile
  import opened DaemonSpec

  // ---------------------------------------------------------------- readings of the timed history

  function NextMark(m: Option<real>, b: Beat): Option<real> {
    match b
    case CycleStart(t, _) => Some(t)
    case ReloadDone => None
    case _ => m
  }

  /** The start of the last cycle, forgotten at a reload. */
  function ProbeMark(bs: seq<Beat>): Option<real> {
    if bs == [] then None else NextMark(ProbeMark(bs[..|bs| - 1]), bs[|bs| - 1])
  }

  function NextStamp(m: real, b: Beat): real {
    match b
    case Usr1Hup(t, _, _, _) => t
    case Usr2Hup(t, _) => t
    case _ => m
  }

  /** The last SIGHUP that a signal handler asked for. */
  function StampMark(bs: seq<Beat>): real {
    if bs == [] then 0.0 else NextStamp(StampMark(bs[..|bs| - 1]), bs[|bs| - 1])
  }

  predicate GapOk(before: seq<Beat>, b: Beat) {
    match b
    case CycleStart(t, interval) => ProbeMark(before).Some? ==> t - ProbeMark(before).value >= interval as real
    case Usr1Hup(t, urgent, minInterval, _) => urgent || t - StampMark(before) >= minInterval as real
    case _ => true
  }

  ghost predicate Spaced(bs: seq<Beat>) {
    forall k :: 0 <= k < |bs| ==> GapOk(bs[..k], bs[k])
  }

  function TimeOf(b: Beat): Option<real> {
    match b
    case CycleStart(t, _) => Some(t)
    case Usr1Hup(t, _, _, _) => Some(t)
    case Usr2Hup(t, _) => Some(t)
    case _ => None
  }

  predicate NotAfter(b: Beat, now: real) { TimeOf(b).Some? ==> TimeOf(b).value <= now }

  /** No beat is earlier than one before it, and none is later than `now`. */
  ghost predicate Chronological(bs: seq<Beat>, now: real) {
    && (forall i, j :: 0 <= i < j < |bs| && TimeOf(bs[j]).Some? ==> NotAfter(bs[i], TimeOf(bs[j]).value))
    && (forall i :: 0 <= i < |bs| ==> NotAfter(bs[i], now))
  }

  lemma {:induction false} Appended(bs: seq<Beat>, b: Beat)
    ensures ProbeMark(bs + [b]) == NextMark(ProbeMark(bs), b) && StampMark(bs + [b]) == NextStamp(StampMark(bs), b)
    ensures Spaced(bs + [b]) <==> Spaced(bs) && GapOk(bs, b)
  {
    var cs := bs + [b];
    assert cs[..|bs|] == bs && cs[|bs|] == b;
    assert forall k :: 0 <= k < |bs| ==> cs[..k] == bs[..k] && cs[k] == bs[k];
    if Spaced(cs) {
      assert GapOk(cs[..|bs|], cs[|bs|]);
      forall k | 0 <= k < |bs| ensures GapOk(bs[..k], bs[k]) {
        assert GapOk(cs[..k], cs[k]);
      }
    }
  }

  // ---------------------------------------------------------------- every run keeps its distance

  /** `time.monotonic()` as read in the course of a turn that begins at `from`. */
  predicate ClockOk(t: Turn, from: real) { from <= t.usr2Time <= t.usr1Time <= t.cycleTime }

  /** The clock at the end of a script. */
  function EndOf(script: seq<Turn>): real { if script == [] then 0.0 else script[|script| - 1].cycleTime }

  ghost predicate Ticking(script: seq<Turn>) {
    forall i :: 0 <= i < |script| ==> ClockOk(script[i], EndOf(script[..i]))
  }

  lemma TickingPrefix(script: seq<Turn>)
    requires Ticking(script) && script != []
    ensures var most := script[..|script| - 1]; Ticking(most) && ClockOk(script[|script| - 1], EndOf(most))
  {
    var most := script[..|script| - 1];
    forall i | 0 <= i < |most| ensures ClockOk(most[i], EndOf(most[..i])) {
      assert most[..i] == script[..i] && ClockOk(script[i], EndOf(script[..i]));
    }
  }

  ghost predicate InStep(d: DaemonState, now: real) {
    && d.lastProbe == ProbeMark(d.beats) && d.lastSighup == StampMark(d.beats)
    && Spaced(d.beats) && Chronological(d.beats, now)
  }

  lemma BeatKeeps(bs: seq<Beat>, b: Beat, now: real)
    requires Spaced(bs) && Chronological(bs, now) && GapOk(bs, b)
    requires TimeOf(b).Some? ==> now <= TimeOf(b).value
    ensures var now' := if TimeOf(b).Some? then TimeOf(b).value else now;
            Spaced(bs + [b]) && Chronological(bs + [b], now')
  {
    hide GapOk;
    Appended(bs, b);
  }

  lemma Later(bs: seq<Beat>, now: real, then': real)
    requires Chronological(bs, now) && now <= then'
    ensures Chronological(bs, then')
  {
  }

  lemma ReloadInStep(d: DaemonState, t: Turn, now: real)
    requires InStep(d, now)
    ensures InStep(MaybeReload(d, t), now)
  {
    hide Reconcile.ReconcileAll, PrimaryIpv4, PrimaryIpv6, Setup, Spaced, Chronological, ReportPrimary;
    BeatKeeps(d.beats, ReloadDone, now);
    Appended(d.beats, ReloadDone);
  }

  lemma Usr2InStep(d: DaemonState, t: Turn, now: real)
    requires InStep(d, now) && now <= t.usr2Time
    ensures InStep(MaybeUsr2(d, t), t.usr2Time)
  {
    hide Regenerated, Signalled, Spaced, Chronological;
    var b := Usr2Hup(t.usr2Time, AllUnits(d.cfg));
    BeatKeeps(d.beats, b, now);
    Appended(d.beats, b);
    Later(d.beats, now, t.usr2Time);
  }

  lemma RefreshInStep(d: DaemonState, t: Turn, now: real)
    requires InStep(d, now) && now <= t.usr1Time
    ensures InStep(Refreshed(d, t.gwFiles, t.usr1RadvdFiles, t.usr1Time), t.usr1Time)
  {
    hide Regenerated, Signalled, Spaced, Chronological, MinGwRemaining, GapOk, ProbeMark, StampMark;
    var minInterval := d.cfg.radvdMinInterval;
    var due := t.usr1Time - d.lastSighup >= minInterval as real;
    var b := Usr1Hup(t.usr1Time, !due, minInterval, AllUnits(d.cfg));
    DueIsGapOk(d.beats, t.usr1Time, minInterval, AllUnits(d.cfg));
    BeatKeeps(d.beats, b, now);
    Appended(d.beats, b);
    Later(d.beats, now, t.usr1Time);
  }

  lemma {:induction false} DueIsGapOk(bs: seq<Beat>, t: real, minInterval: int, units: seq<string>)
    ensures GapOk(bs, Usr1Hup(t, !(t - StampMark(bs) >= minInterval as real), minInterval, units))
  {
  }

  lemma ReconcileInStep(d: DaemonState, t: Turn, now: real)
    requires InStep(d, now) && now <= t.usr1Time
    ensures InStep(MaybeReconcile(d, t), t.usr1Time)
  {
    hide Reconcile.ReconcileAll, PrimaryIpv4, PrimaryIpv6, Refreshed, Spaced, Chronological, ReportPrimary;
    Later(d.beats, now, t.usr1Time);
    RefreshInStep(Reconciled(d, t.usr1Files), t, now);
  }

  /** `d'` has the clocks of `d`, and at most a SIGHUP for a flipped link since. */
  predicate SameTimes(d: DaemonState, d': DaemonState) {
    && d'.lastProbe == d.lastProbe && d'.lastSighup == d.lastSighup
    && (d'.beats == d.beats || d'.beats == d.beats + [FlipHup(AllUnits(d.cfg))])
  }

  lemma MonitoredFrame(d: DaemonState, t: Turn)
    ensures SameTimes(d, Monitored(d, t))
  {
    hide Cycle, AnyIpv6Change, Regenerated, Signalled;
  }

  lemma UpdateFrame(d: DaemonState)
    ensures UpdatePrimaries(d).beats == d.beats
    ensures UpdatePrimaries(d).lastProbe == d.lastProbe && UpdatePrimaries(d).lastSighup == d.lastSighup
  {
    hide PrimaryIpv4, PrimaryIpv6, ReportPrimary, NameAt;
  }

  lemma RunCycleFrame(d: DaemonState, t: Turn)
    ensures SameTimes(d, RunCycle(d, t))
  {
    hide Monitored, UpdatePrimaries;
    MonitoredFrame(d, t);
    UpdateFrame(Monitored(d, t));
  }

  lemma CycleInStep(d: DaemonState, t: Turn, now: real)
    requires InStep(d, now) && now <= t.cycleTime
    ensures InStep(MaybeCycle(d, t), t.cycleTime)
  {
    hide RunCycle, Spaced, Chronological;
    var b := CycleStart(t.cycleTime, d.cfg.interval);
    Later(d.beats, now, t.cycleTime);
    if ProbeDue(d, t.cycleTime) {
      RunCycleFrame(d.(lastProbe := Some(t.cycleTime), beats := d.beats + [b]), t);
      BeatKeeps(d.beats, b, now);
      Appended(d.beats, b);
      var flip := FlipHup(AllUnits(d.cfg));
      BeatKeeps(d.beats + [b], flip, t.cycleTime);
      Appended(d.beats + [b], flip);
    }
  }

  lemma TurnInStep(d: DaemonState, t: Turn, now: real)
    requires InStep(d, now) && ClockOk(t, now)
    ensures InStep(TurnOnce(d, t), t.cycleTime)
  {
    hide MaybeReload, MaybeUsr2, MaybeReconcile, MaybeCycle, ProbeMark, StampMark, Spaced, Chronological;
    var d0 := Wake(d, t);
    ReloadInStep(d0, t, now);
    var d1 := Deliver(MaybeReload(d0, t), t.signals1);
    Usr2InStep(d1, t, now);
    var d2 := Deliver(MaybeUsr2(d1, t), t.signals2);
    ReconcileInStep(d2, t, t.usr2Time);
    CycleInStep(MaybeReconcile(d2, t), t, t.usr1Time);
  }

  lemma {:induction false} LoopInStep(d: DaemonState, script: seq<Turn>)
    requires InStep(d, 0.0) && Ticking(script)
    ensures InStep(Loop(d, script), EndOf(script))
  {
    hide InStep, TurnOnce;
    if script != [] {
      var most, last := script[..|script| - 1], script[|script| - 1];
      TickingPrefix(script);
      LoopInStep(d, most);
      if Loop(d, most).running {
        TurnInStep(Loop(d, most), last, EndOf(most));
      } else {
        StillInStep(Loop(d, most), EndOf(most), last.cycleTime);
      }
    }
  }

  lemma StillInStep(d: DaemonState, now: real, then': real)
    requires InStep(d, now) && now <= then'
    ensures InStep(d, then')
  {
  }

  lemma StartInStep(cfg: Config, conf: Confs, signals: seq<(string, RadvdAction)>, files: Snapshot)
    ensures InStep(Start(cfg, conf, signals, files), 0.0)
  {
    hide Reconcile.ReconcileAll, PrimaryIpv4, PrimaryIpv6, Setup, ReportPrimary;
  }

  // ---------------------------------------------------------------- counting in a stretch of the history

  function Cycles(bs: seq<Beat>, i: nat, j: nat): nat
    requires i <= j <= |bs|
  {
    if i == j then 0 else Cycles(bs, i, j - 1) + if bs[j - 1].CycleStart? then 1 else 0
  }

  function Reloads(bs: seq<Beat>, i: nat, j: nat): nat
    requires i <= j <= |bs|
  {
    if i == j then 0 else Reloads(bs, i, j - 1) + if bs[j - 1].ReloadDone? then 1 else 0
  }

  predicate Ordinary(b: Beat) { b.Usr1Hup? && !b.urgent }

  function OrdinaryHups(bs: seq<Beat>, i: nat, j: nat): nat
    requires i <= j <= |bs|
  {
    if i == j then 0 else OrdinaryHups(bs, i, j - 1) + if Ordinary(bs[j - 1]) then 1 else 0
  }

  /** What the stretch from `i` says of its cycles: all run at least every `I` seconds from `a` on. */
  ghost predicate CyclesFrom(bs: seq<Beat>, i: nat, j: nat, a: real, I: nat)
    requires i <= j <= |bs|
  {
    forall k :: i <= k < j && bs[k].CycleStart? ==> bs[k].interval >= I && a <= bs[k].time
  }

  /** `n` intervals. */
  function Span(n: int, I: nat): int { n * I }

  lemma SpanSteps(n: int, I: nat)
    ensures Span(n + 1, I) == Span(n, I) + I && Span(n - 1, I) == Span(n, I) - I
    ensures n <= 0 ==> Span(n, I) <= 0
  {
  }

  /** The intervals between cycles fit between `a` and the last start; each reload gives one cycle for free. */
  lemma {:induction false} CyclesFit(bs: seq<Beat>, i: nat, j: nat, a: real, I: nat, now: real) returns (last: real)
    requires i <= j <= |bs| && Spaced(bs) && Chronological(bs, now) && CyclesFrom(bs, i, j, a, I)
    ensures Cycles(bs, i, j) > 0 ==>
              && (exists k :: i <= k < j && bs[k].CycleStart? && bs[k].time == last)
              && (Span(Cycles(bs, i, j) - Reloads(bs, i, j) - 1, I)) as real <= last - a
              && (ProbeMark(bs[..j]).Some? ==> ProbeMark(bs[..j]) == Some(last))
              && (ProbeMark(bs[..j]).None? ==> (Span(Cycles(bs, i, j) - Reloads(bs, i, j), I)) as real <= last - a)
  {
    hide Spaced, Chronological, Span;
    last := a;
    if i < j {
      last := CyclesFit(bs, i, j - 1, a, I, now);
      var b, before := bs[j - 1], bs[..j - 1];
      assert bs[..j][..j - 1] == before;
      var c: int, r: int := Cycles(bs, i, j - 1), Reloads(bs, i, j - 1);
      SpanSteps(c - r, I);
      SpanSteps(c - r - 1, I);
      if b.CycleStart? {
        GapAt(bs, j - 1);
        if c > 0 {
          var k :| i <= k < j - 1 && bs[k].CycleStart? && bs[k].time == last;
          InOrder(bs, k, j - 1, now);
        }
        last := b.time;
      }
    }
  }

  lemma GapAt(bs: seq<Beat>, k: nat)
    requires Spaced(bs) && k < |bs|
    ensures GapOk(bs[..k], bs[k])
  {
  }

  lemma InOrder(bs: seq<Beat>, i: nat, j: nat, now: real)
    requires Chronological(bs, now) && i < j < |bs| && TimeOf(bs[i]).Some? && TimeOf(bs[j]).Some?
    ensures TimeOf(bs[i]).value <= TimeOf(bs[j]).value
  {
    assert NotAfter(bs[i], TimeOf(bs[j]).value);
  }

  lemma SpanMonotone(m: int, n: int, I: nat)
    ensures m <= n ==> Span(m, I) <= Span(n, I)
  {
    if m <= n {
      assert (n - m) * I >= 0;
      assert Span(n, I) == Span(m, I) + (n - m) * I;
    }
  }

  lemma Quotient(n: int, I: nat, W: int)
    requires I > 0 && Span(n, I) <= W
    ensures n <= W / I
  {
    var q := W / I;
    assert W < Span(q, I) + I;
    hide Span;
    SpanSteps(q, I);
    SpanMonotone(q + 1, n, I);
  }

  /** In any stretch of the history whose cycles start within `W` seconds, at most W/interval + 1 + reloads of them start. */
  lemma {:induction false} ProbeRate(bs: seq<Beat>, i: nat, j: nat, a: real, W: int, I: nat, now: real)
    requires i <= j <= |bs| && Spaced(bs) && Chronological(bs, now) && I > 0 && W >= 0
    requires CyclesFrom(bs, i, j, a, I) && forall k :: i <= k < j && bs[k].CycleStart? ==> bs[k].time <= a + W as real
    ensures Cycles(bs, i, j) <= W / I + 1 + Reloads(bs, i, j)
  {
    hide Spaced, Chronological, Span;
    var last := CyclesFit(bs, i, j, a, I, now);
    if Cycles(bs, i, j) > 0 {
      Quotient(Cycles(bs, i, j) - Reloads(bs, i, j) - 1, I, W);
    }
  }

  ghost predicate HupsFrom(bs: seq<Beat>, i: nat, j: nat, a: real, M: nat)
    requires i <= j <= |bs|
  {
    forall k :: i <= k < j && Ordinary(bs[k]) ==> bs[k].minInterval >= M && a <= bs[k].time
  }

  /** The last SIGHUP on request is never older than any before it. */
  lemma {:induction false} StampIsLast(bs: seq<Beat>, k: nat, j: nat, now: real)
    requires k < j <= |bs| && Chronological(bs, now) && (bs[k].Usr1Hup? || bs[k].Usr2Hup?)
    ensures TimeOf(bs[k]).value <= StampMark(bs[..j])
  {
    hide Chronological;
    assert bs[..j][..j - 1] == bs[..j - 1];
    if k < j - 1 {
      StampIsLast(bs, k, j - 1, now);
      if bs[j - 1].Usr1Hup? || bs[j - 1].Usr2Hup? {
        InOrder(bs, k, j - 1, now);
      }
    }
  }

  lemma {:induction false} HupsFit(bs: seq<Beat>, i: nat, j: nat, a: real, M: nat, now: real) returns (last: real)
    requires i <= j <= |bs| && Spaced(bs) && Chronological(bs, now) && HupsFrom(bs, i, j, a, M)
    ensures OrdinaryHups(bs, i, j) > 0 ==>
              && (exists k :: i <= k < j && Ordinary(bs[k]) && bs[k].time == last)
              && Span(OrdinaryHups(bs, i, j) - 1, M) as real <= last - a
  {
    hide Spaced, Chronological, Span;
    last := a;
    if i < j {
      last := HupsFit(bs, i, j - 1, a, M, now);
      var b, n := bs[j - 1], OrdinaryHups(bs, i, j - 1);
      SpanSteps(n, M);
      if Ordinary(b) {
        GapAt(bs, j - 1);
        if n > 0 {
          var k :| i <= k < j - 1 && Ordinary(bs[k]) && bs[k].time == last;
          StampIsLast(bs, k, j - 1, now);
        }
        last := b.time;
      }
    }
  }

  /** Likewise for the SIGHUPs that SIGUSR1 causes without an advertisement being about to expire. */
  lemma {:induction false} OrdinaryRate(bs: seq<Beat>, i: nat, j: nat, a: real, W: int, M: nat, now: real)
    requires i <= j <= |bs| && Spaced(bs) && Chronological(bs, now) && M > 0 && W >= 0
    requires HupsFrom(bs, i, j, a, M) && forall k :: i <= k < j && Ordinary(bs[k]) ==> bs[k].time <= a + W as real
    ensures OrdinaryHups(bs, i, j) <= W / M + 1
  {
    hide Spaced, Chronological, Span;
    var last := HupsFit(bs, i, j, a, M, now);
    if OrdinaryHups(bs, i, j) > 0 {
      Quotient(OrdinaryHups(bs, i, j) - 1, M, W);
    }
  }

  /** Every run, whatever the signals and however often they arrive. */
  lemma {:induction false} RatesOfRuns(cfg: Config, conf: Confs, signals: seq<(string, RadvdAction)>, files: Snapshot, script: seq<Turn>)
    requires Ticking(script)
    ensures var bs := Loop(Start(cfg, conf, signals, files), script).beats;
            Spaced(bs) && Chronological(bs, EndOf(script))
  {
    hide Loop, Start, Spaced, Chronological;
    StartInStep(cfg, conf, signals, files);
    LoopInStep(Start(cfg, conf, signals, files), script);
  }
}
