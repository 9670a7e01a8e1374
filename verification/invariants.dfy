/** What every reconcile pass and every probe cycle keeps. */
module Invariants {
  import opened Wrappers
  import opened Configuration
  import opened Naming
  import opened StateMachine
  import opened State
  import opened Routing
  import opened Shadow
  import opened Trace
  import opened Reconcile

  // ---------------------------------------------------------------- the record against the history

  function AllMvs(cfg: Config, u: nat): set<string> { MvSet(cfg, u, |cfg.networks|) }

  /** The accept rules of an uplink follow from the last delegation read since setup: it is kept when PD is lost. */
  function FwdOf(cfg: Config, u: nat, lastPd: Option<Prefix>): map<string, Option<Prefix>>
    requires u < |cfg.uplinks|
  {
    var p := if cfg.rejectWrongPdSrc then lastPd else None;
    if cfg.uplinks[u].ipv6Pd || (Ipv6Uplink(cfg.uplinks[u]) && p.Some?) then AllTo(AllMvs(cfg, u), p) else map[]
  }

  ghost predicate InstalledOk(cfg: Config, u: nat, i: Installed, lastPd: Option<Prefix>)
    requires u < |cfg.uplinks|
  {
    && i.fwd == FwdOf(cfg, u, lastPd)
    && (i.prohibit == {} || (cfg.rejectWrongPdSrc && lastPd.Some? && i.prohibit == AllMvs(cfg, u)))
    && (!Ipv6Uplink(cfg.uplinks[u]) ==> !i.route6 && i.lo6.None? && i.pdLo6.None? && i.prohibit == {})
  }

  ghost predicate RecordOk(cfg: Config, c: Core) {
    && c.health.Keys == c.own.sh.Keys == c.own.r6.Keys == Names(cfg)
    && c.own.on4 && c.own.on6
    && Flagged6(cfg, c.own)
    && forall u :: 0 <= u < |cfg.uplinks| ==> InstalledOk(cfg, u, ShOf(cfg, c.own, u), LastPd(c.trace, NameOf(cfg, u)))
  }

  lemma RecordAt(cfg: Config, c: Core, u: nat)
    requires RecordOk(cfg, c) && u < |cfg.uplinks|
    ensures NameOf(cfg, u) in c.own.sh && InstalledOk(cfg, u, c.own.sh[NameOf(cfg, u)], LastPd(c.trace, NameOf(cfg, u)))
  {
    hide InstalledOk, LastPd, Flagged6;
    assert InstalledOk(cfg, u, ShOf(cfg, c.own, u), LastPd(c.trace, NameOf(cfg, u)));
  }

  // ---------------------------------------------------------------- the links against the history

  ghost predicate Tracked(t: History, name: string, f: Family, l: Link) {
    LastWan(t, name, f) == l.state && (l.state.Down? ==> l.successes == OkRun(t, name, f))
  }

  ghost predicate LinkOk(cfg: Config, c: Core, u: nat, f: Family)
    requires u < |cfg.uplinks|
  {
    Tracked(c.trace, NameOf(cfg, u), f, LinkOf(HealthAt(cfg, c, u), f))
  }

  ghost predicate LinksOk(cfg: Config, c: Core) {
    && Earned(c.trace) && Threshold(c.trace) == cfg.recoveryThreshold
    && forall u, f :: 0 <= u < |cfg.uplinks| ==> LinkOk(cfg, c, u, f)
  }

  // ---------------------------------------------------------------- health against the record

  /** UP iff routed for IPv4; a link that is DOWN is no source for the router's own packets. */
  predicate Settled(h: Health, i: Installed) {
    && (h.v4.state.Up? <==> i.gw4.Some?)
    && (h.v4.state.Down? ==> i.lo4.None?)
    && (h.v6.state.Down? ==> i.lo6.None? && i.pdLo6.None?)
  }

  ghost predicate SettledAt(cfg: Config, c: Core, u: nat)
    requires u < |cfg.uplinks|
  {
    Settled(HealthAt(cfg, c, u), ShOf(cfg, c.own, u))
  }

  ghost predicate AllSettled(cfg: Config, c: Core, n: nat)
    requires n <= |cfg.uplinks|
  {
    forall u :: 0 <= u < n ==> SettledAt(cfg, c, u)
  }

  /** The invariant at every loop boundary. */
  ghost predicate CoreOk(cfg: Config, c: Core) {
    RecordOk(cfg, c) && LinksOk(cfg, c) && AllSettled(cfg, c, |cfg.uplinks|)
  }

  // ---------------------------------------------------------------- frames

  /** Nothing about any uplink but `u` differs. */
  ghost predicate OnlyUplink(cfg: Config, c: Core, c': Core, u: nat) {
    && c'.own.on4 == c.own.on4 && c'.own.on6 == c.own.on6
    && forall v :: 0 <= v < |cfg.uplinks| && v != u ==>
         && HealthAt(cfg, c', v) == HealthAt(cfg, c, v)
         && ShOf(cfg, c'.own, v) == ShOf(cfg, c.own, v)
         && Route6At(cfg, c'.own, v) == Route6At(cfg, c.own, v)
  }

  lemma Frame4(cfg: Config, c: Core, u: nat, l: Leases)
    requires Accepted(cfg) && u < |cfg.uplinks|
    ensures var c' := Reconcile4(cfg, c, u, l);
            && OnlyUplink(cfg, c, c', u)
            && HealthAt(cfg, c', u) == LeaseHealth4(HealthAt(cfg, c, u), l)
            && ShOf(cfg, c'.own, u) == Target4(HealthAt(cfg, c', u), ShOf(cfg, c.own, u), l)
            && c'.own.r6 == c.own.r6
  {
  }

  lemma Frame6(cfg: Config, c: Core, u: nat, l: Leases)
    requires Accepted(cfg) && u < |cfg.uplinks|
    ensures var c' := Reconcile6(cfg, c, u, l);
            && OnlyUplink(cfg, c, c', u)
            && (Ipv6Uplink(cfg.uplinks[u]) ==>
                  && HealthAt(cfg, c', u) == LeaseHealth6(HealthAt(cfg, c, u), l)
                  && ShOf(cfg, c'.own, u) == Target6(cfg, u, HealthAt(cfg, c', u), ShOf(cfg, c.own, u), l)
                  && Route6At(cfg, c'.own, u) == TargetRoute6(cfg.uplinks[u], l))
  {
  }

  // ---------------------------------------------------------------- reconcile, one uplink

  lemma Installed4(cfg: Config, u: nat, h: Health, i: Installed, l: Leases, lastPd: Option<Prefix>)
    requires u < |cfg.uplinks| && InstalledOk(cfg, u, i, lastPd)
    ensures InstalledOk(cfg, u, Target4(h, i, l), lastPd) && Target4(h, i, l).route6 == i.route6
  {
  }

  lemma Record4(cfg: Config, c: Core, u: nat, l: Leases)
    requires Accepted(cfg) && u < |cfg.uplinks| && RecordOk(cfg, c)
    ensures RecordOk(cfg, Reconcile4(cfg, c, u, l))
  {
    hide Accepted, FwdOf, Target4, InstalledOk, LastPd, LeaseHealth4;
    Frame4(cfg, c, u, l);
    var c' := Reconcile4(cfg, c, u, l);
    Pds4(c.trace, NameOf(cfg, u), HealthAt(cfg, c', u) != HealthAt(cfg, c, u));
    forall v | 0 <= v < |cfg.uplinks|
      ensures InstalledOk(cfg, v, ShOf(cfg, c'.own, v), LastPd(c'.trace, NameOf(cfg, v)))
              && ShOf(cfg, c'.own, v).route6 == ShOf(cfg, c.own, v).route6
    {
      assert InstalledOk(cfg, v, ShOf(cfg, c.own, v), LastPd(c.trace, NameOf(cfg, v)));
      if v == u {
        Installed4(cfg, u, HealthAt(cfg, c', u), ShOf(cfg, c.own, u), l, LastPd(c.trace, NameOf(cfg, u)));
      }
    }
    assert c'.health.Keys == c'.own.sh.Keys == Names(cfg);
  }

  lemma {:induction false} Pds4(t: History, name: string, forced: bool)
    ensures forall n :: LastPd(TraceForced(t, name, V4, forced), n) == LastPd(t, n)
  {
    hide LastPd, LastWan, OkRun, Threshold, Earned;
    Pushed(t, Fired(Wan(name, V4, Down)));
  }

  /** Narrowing to the newest delegation yields what the history then asks for. */
  lemma NarrowFollows(cfg: Config, u: nat, lastPd: Option<Prefix>, p: Prefix)
    requires u < |cfg.uplinks| && Ipv6Uplink(cfg.uplinks[u])
    ensures Narrow(FwdOf(cfg, u, lastPd), AllMvs(cfg, u), if cfg.rejectWrongPdSrc then Some(p) else None) == FwdOf(cfg, u, Some(p))
  {
  }

  lemma Installed6(cfg: Config, u: nat, h: Health, i: Installed, l: Leases, lastPd: Option<Prefix>)
    requires u < |cfg.uplinks| && Ipv6Uplink(cfg.uplinks[u]) && InstalledOk(cfg, u, i, lastPd)
    ensures InstalledOk(cfg, u, Target6(cfg, u, h, i, l), if l.pd.Some? then Delegation(l) else lastPd)
    ensures Target6(cfg, u, h, i, l).prohibit == if l.pd.Some? && cfg.rejectWrongPdSrc then AllMvs(cfg, u) else {}
  {
    hide Mv, MvSet, FwdOf, Narrow, LoSource6;
    assert i.prohibit - AllMvs(cfg, u) == {} && (cfg.rejectWrongPdSrc ==> i.prohibit + AllMvs(cfg, u) == AllMvs(cfg, u));
    if l.pd.Some? {
      NarrowFollows(cfg, u, lastPd, Delegation(l).value);
    }
  }

  lemma Record6(cfg: Config, c: Core, u: nat, l: Leases)
    requires Accepted(cfg) && u < |cfg.uplinks| && RecordOk(cfg, c)
    ensures RecordOk(cfg, Reconcile6(cfg, c, u, l))
  {
    hide Accepted, FwdOf, LastPd, InstalledOk, Trace6, Delegation, LoSource6;
    if Ipv6Uplink(cfg.uplinks[u]) {
      Frame6(cfg, c, u, l);
      var c' := Reconcile6(cfg, c, u, l);
      Pds6(cfg, c.trace, u, HealthAt(cfg, c', u) != HealthAt(cfg, c, u), l);
      forall v | 0 <= v < |cfg.uplinks|
        ensures InstalledOk(cfg, v, ShOf(cfg, c'.own, v), LastPd(c'.trace, NameOf(cfg, v)))
      {
        assert InstalledOk(cfg, v, ShOf(cfg, c.own, v), LastPd(c.trace, NameOf(cfg, v)));
        if v == u {
          Installed6(cfg, u, HealthAt(cfg, c', u), ShOf(cfg, c.own, u), l, LastPd(c.trace, NameOf(cfg, u)));
        }
      }
      assert Target6(cfg, u, HealthAt(cfg, c', u), ShOf(cfg, c.own, u), l).route6 == l.ra.Some?;
    }
  }

  lemma {:induction false} Pds6(cfg: Config, t: History, u: nat, forced: bool, l: Leases)
    requires Accepted(cfg) && u < |cfg.uplinks|
    ensures forall v :: 0 <= v < |cfg.uplinks| ==>
              LastPd(Trace6(t, NameOf(cfg, u), forced, l), NameOf(cfg, v)) ==
              if v == u && l.pd.Some? then Delegation(l) else LastPd(t, NameOf(cfg, v))
  {
    hide Accepted, LastPd, LastWan, OkRun, Threshold, Earned;
    var name := NameOf(cfg, u);
    OtherNames(cfg, u);
    Pushed(t, Fired(Wan(name, V6, Down)));
    if l.pd.Some? {
      Pushed(TraceForced(t, name, V6, forced), PdSeen(name, Delegation(l).value));
    }
  }

  // ---------------------------------------------------------------- links, one uplink

  /** A link whose state was just flipped by a probe and not yet reported; recovery is earned. */
  ghost predicate Flipped(t: History, name: string, f: Family, l: Link) {
    && LastWan(t, name, f) != l.state
    && (l.state.Up? ==> OkRun(t, name, f) >= Effective(Threshold(t)))
    && (l.state.Down? ==> l.successes == 0)
  }

  /** The readings of every other link are unchanged, and the history is as good as before. */
  ghost predicate SameReadings(cfg: Config, t: History, t': History, u: nat, f: Family) {
    && Threshold(t') == Threshold(t) && (Earned(t) ==> Earned(t'))
    && forall v, g :: 0 <= v < |cfg.uplinks| && (v != u || g != f) ==>
         && LastWan(t', NameOf(cfg, v), g) == LastWan(t, NameOf(cfg, v), g)
         && OkRun(t', NameOf(cfg, v), g) == OkRun(t, NameOf(cfg, v), g)
  }

  lemma {:induction false} PushWan(cfg: Config, t: History, u: nat, f: Family, s: LinkState)
    requires Accepted(cfg) && u < |cfg.uplinks|
    requires s.Up? ==> OkRun(t, NameOf(cfg, u), f) >= Effective(Threshold(t))
    ensures var t' := t + [Fired(Wan(NameOf(cfg, u), f, s))];
            && SameReadings(cfg, t, t', u, f)
            && LastWan(t', NameOf(cfg, u), f) == s
            && OkRun(t', NameOf(cfg, u), f) == if s.Down? then 0 else OkRun(t, NameOf(cfg, u), f)
  {
    hide LastWan, OkRun, Threshold, Earned;
    Pushed(t, Fired(Wan(NameOf(cfg, u), f, s)));
  }

  lemma {:induction false} PushPd(cfg: Config, t: History, name: string, p: Prefix)
    ensures var t' := t + [PdSeen(name, p)];
            && Threshold(t') == Threshold(t) && (Earned(t) ==> Earned(t'))
            && forall n, f :: LastWan(t', n, f) == LastWan(t, n, f) && OkRun(t', n, f) == OkRun(t, n, f)
  {
    hide LastWan, OkRun, Threshold, Earned;
    Pushed(t, PdSeen(name, p));
  }

  /** The forced DOWN keeps a tracked link tracked; a link that just recovered is tracked again or still awaits its report. */
  lemma Links4(cfg: Config, c: Core, u: nat, l: Leases)
    requires Accepted(cfg) && u < |cfg.uplinks|
    ensures var c' := Reconcile4(cfg, c, u, l);
            && SameReadings(cfg, c.trace, c'.trace, u, V4)
            && (LinkOk(cfg, c, u, V4) ==> LinkOk(cfg, c', u, V4))
            && (HealthAt(cfg, c', u) != HealthAt(cfg, c, u) ==> HealthAt(cfg, c', u).v4 == FORCED && LinkOk(cfg, c', u, V4))
            && (HealthAt(cfg, c', u) == HealthAt(cfg, c, u) ==> c'.trace == c.trace)
  {
    hide LastWan, OkRun, Threshold, Earned, Accepted, Target4;
    Frame4(cfg, c, u, l);
    PushWan(cfg, c.trace, u, V4, Down);
  }

  lemma Links6(cfg: Config, c: Core, u: nat, l: Leases)
    requires Accepted(cfg) && u < |cfg.uplinks|
    ensures var c' := Reconcile6(cfg, c, u, l);
            && SameReadings(cfg, c.trace, c'.trace, u, V6)
            && (LinkOk(cfg, c, u, V6) ==> LinkOk(cfg, c', u, V6))
            && (HealthAt(cfg, c', u) != HealthAt(cfg, c, u) ==> HealthAt(cfg, c', u).v6 == FORCED && LinkOk(cfg, c', u, V6))
            && (HealthAt(cfg, c', u) == HealthAt(cfg, c, u) ==>
                  LastWan(c'.trace, NameOf(cfg, u), V6) == LastWan(c.trace, NameOf(cfg, u), V6)
                  && OkRun(c'.trace, NameOf(cfg, u), V6) == OkRun(c.trace, NameOf(cfg, u), V6))
  {
    hide LastWan, OkRun, Threshold, Earned, Accepted, Own6, Target6;
    Frame6(cfg, c, u, l);
    if Ipv6Uplink(cfg.uplinks[u]) {
      var name, h := NameOf(cfg, u), HealthAt(cfg, c, u);
      PushWan(cfg, c.trace, u, V6, Down);
      if l.pd.Some? {
        PushPd(cfg, TraceForced(c.trace, name, V6, LeaseHealth6(h, l) != h), name, Delegation(l).value);
      }
    }
  }

  // ---------------------------------------------------------------- _reconcile_all

  lemma ReconcileOneKeeps(cfg: Config, c: Core, u: nat, l: Leases)
    requires Accepted(cfg) && u < |cfg.uplinks| && RecordOk(cfg, c) && LinksOk(cfg, c)
    ensures var c' := ReconcileOne(cfg, c, u, l);
            RecordOk(cfg, c') && LinksOk(cfg, c') && SettledAt(cfg, c', u) && OnlyUplink(cfg, c, c', u)
  {
    hide Accepted, RecordOk, LastWan, OkRun, Threshold, Earned;
    var c1 := Reconcile4(cfg, c, u, l);
    Record4(cfg, c, u, l);
    Record6(cfg, c1, u, l);
    Links4(cfg, c, u, l);
    Links6(cfg, c1, u, l);
    Frame4(cfg, c, u, l);
    Frame6(cfg, c1, u, l);
    LinksFrom(cfg, c, c1, u, V4);
    LinksFrom(cfg, c1, Reconcile6(cfg, c1, u, l), u, V6);
    SettledByPass(cfg, c, u, l);
  }

  /** If only one link's readings moved and that link is tracked, all are. */
  lemma LinksFrom(cfg: Config, c: Core, c': Core, u: nat, f: Family)
    requires u < |cfg.uplinks| && LinksOk(cfg, c) && OnlyUplink(cfg, c, c', u)
    requires SameReadings(cfg, c.trace, c'.trace, u, f) && LinkOk(cfg, c', u, f)
    requires forall g :: g != f ==> LinkOf(HealthAt(cfg, c', u), g) == LinkOf(HealthAt(cfg, c, u), g)
    ensures LinksOk(cfg, c')
  {
    hide LastWan, OkRun, Threshold, Earned;
    forall v, g | 0 <= v < |cfg.uplinks| ensures LinkOk(cfg, c', v, g) {
      assert LinkOk(cfg, c, v, g);
    }
  }

  lemma SettledByPass(cfg: Config, c: Core, u: nat, l: Leases)
    requires Accepted(cfg) && u < |cfg.uplinks| && RecordOk(cfg, c)
    ensures SettledAt(cfg, ReconcileOne(cfg, c, u, l), u)
  {
    var c1 := Reconcile4(cfg, c, u, l);
    Frame4(cfg, c, u, l);
    Frame6(cfg, c1, u, l);
    assert InstalledOk(cfg, u, ShOf(cfg, c.own, u), LastPd(c.trace, NameOf(cfg, u)));
  }

  lemma {:induction false} ReconcileAllKeeps(cfg: Config, c: Core, files: Snapshot, i: nat)
    requires Accepted(cfg) && i <= |cfg.uplinks| && RecordOk(cfg, c) && LinksOk(cfg, c)
    ensures var c' := ReconcileAll(cfg, c, files, i);
            RecordOk(cfg, c') && LinksOk(cfg, c') && AllSettled(cfg, c', i)
  {
    hide Accepted, RecordOk, LinksOk, Settled;
    if i > 0 {
      ReconcileAllKeeps(cfg, c, files, i - 1);
      var before := ReconcileAll(cfg, c, files, i - 1);
      ReconcileOneKeeps(cfg, before, i - 1, Read(files, NameOf(cfg, i - 1)));
      forall u | 0 <= u < i - 1 ensures SettledAt(cfg, ReconcileAll(cfg, c, files, i), u) {
        assert SettledAt(cfg, before, u);
      }
    }
  }

  // ---------------------------------------------------------------- start

  lemma {:induction false} SetupFwdAt(cfg: Config, o: Owned, i: nat)
    requires Accepted(cfg) && i <= |cfg.uplinks|
    requires forall u :: 0 <= u < |cfg.uplinks| ==> NameOf(cfg, u) in o.sh
    ensures var o' := SetupFwd(cfg, o, i);
            && o' == o.(sh := o'.sh) && o'.sh.Keys == o.sh.Keys
            && forall u :: 0 <= u < |cfg.uplinks| ==>
                 ShOf(cfg, o', u) == if u < i && cfg.uplinks[u].ipv6Pd then ShOf(cfg, o, u).(fwd := AllTo(AllMvs(cfg, u), None))
                                     else ShOf(cfg, o, u)
  {
    hide Accepted, AllTo, MvSet;
    if i > 0 {
      SetupFwdAt(cfg, o, i - 1);
      var before := SetupFwd(cfg, o, i - 1);
      assert ShOf(cfg, before, i - 1) == ShOf(cfg, o, i - 1);
      OthersKept(cfg, before, i - 1, ShOf(cfg, o, i - 1).(fwd := AllTo(AllMvs(cfg, i - 1), None)));
    }
  }

  lemma FwdAtStart(cfg: Config, u: nat)
    requires u < |cfg.uplinks|
    ensures FwdOf(cfg, u, None) == if cfg.uplinks[u].ipv6Pd then AllTo(AllMvs(cfg, u), None) else map[]
  {
  }

  lemma SetupKeeps(cfg: Config, t: History)
    requires Accepted(cfg) && Earned(t)
    ensures RecordOk(cfg, Setup(cfg, t)) && LinksOk(cfg, Setup(cfg, t))
  {
    hide LastWan, OkRun, LastPd, Threshold, Earned, InstalledOk, SetupFwd, UplinksDistinct;
    Pushed(t, Init(cfg.recoveryThreshold));
    var c := Setup(cfg, t);
    SetupFwdAt(cfg, NothingOwned(cfg).(on4 := true, on6 := true), |cfg.uplinks|);
    forall u | 0 <= u < |cfg.uplinks|
      ensures InstalledOk(cfg, u, ShOf(cfg, c.own, u), LastPd(c.trace, NameOf(cfg, u))) && Route6At(cfg, c.own, u).None?
    {
      SetupInstalled(cfg, u);
    }
    SetupLinks(cfg, t);
  }

  lemma SetupLinks(cfg: Config, t: History)
    requires Accepted(cfg) && Earned(t)
    ensures LinksOk(cfg, Setup(cfg, t))
  {
    hide LastWan, OkRun, LastPd, Threshold, Earned, SetupFwd, UplinksDistinct;
    Pushed(t, Init(cfg.recoveryThreshold));
  }

  lemma SetupInstalled(cfg: Config, u: nat)
    requires Accepted(cfg) && u < |cfg.uplinks|
    ensures InstalledOk(cfg, u, ShOf(cfg, Setup(cfg, []).own, u), None)
  {
    hide UplinksDistinct, FwdOf;
    var o := NothingOwned(cfg).(on4 := true, on6 := true);
    SetupFwdAt(cfg, o, |cfg.uplinks|);
    FwdAtStart(cfg, u);
    assert ShOf(cfg, o, u) == NOTHING;
  }

  // ---------------------------------------------------------------- probe cycle

  /** One probe: the counters follow the history, and a flip to UP is earned. */
  lemma {:induction false} ProbeTracked(t: History, t': History, name: string, f: Family, l: Link, ok: bool, F: int, R: int)
    requires Tracked(t, name, f, l) && Threshold(t') == R
    requires LastWan(t', name, f) == LastWan(t, name, f)
    requires OkRun(t', name, f) == if ok then OkRun(t, name, f) + 1 else 0
    ensures var l' := Step(l, ok, F, R);
            if l'.state != l.state then Flipped(t', name, f, l') else Tracked(t', name, f, l')
  {
    hide LastWan, OkRun, Threshold;
  }

  lemma ObserveLinks(cfg: Config, c: Core, u: nat, p: Pings)
    requires Accepted(cfg) && u < |cfg.uplinks| && LinksOk(cfg, c)
    ensures var c' := Reconcile.Observe(cfg, c, u, p); var name := NameOf(cfg, u);
            && OnlyUplink(cfg, c, c', u) && c'.own == c.own && c'.health.Keys == c.health.Keys + {name}
            && HealthAt(cfg, c', u) == StepHealth(cfg, u, HealthAt(cfg, c, u), p)
            && Earned(c'.trace) && Threshold(c'.trace) == cfg.recoveryThreshold
            && (forall n :: LastPd(c'.trace, n) == LastPd(c.trace, n))
            && (forall v, g :: 0 <= v < |cfg.uplinks| && v != u ==> LinkOk(cfg, c', v, g))
            && (forall g :: if Changed(cfg, c, u, p, g) then Flipped(c'.trace, name, g, LinkOf(HealthAt(cfg, c', u), g))
                            else LinkOk(cfg, c', u, g))
  {
    hide LastWan, OkRun, Threshold, Earned, LastPd, UplinksDistinct, Step;
    var name, h := NameOf(cfg, u), HealthAt(cfg, c, u);
    var c' := Reconcile.Observe(cfg, c, u, p);
    Pushed(c.trace, Probed(name, V4, p.v4));
    Pushed(c.trace + [Probed(name, V4, p.v4)], Probed(name, V6, p.v6));
    OtherNames(cfg, u);
    forall v, g | 0 <= v < |cfg.uplinks| && v != u ensures LinkOk(cfg, c', v, g) {
      assert LinkOk(cfg, c, v, g);
    }
    assert LinkOk(cfg, c, u, V4) && LinkOk(cfg, c, u, V6);
    ProbeTracked(c.trace, c'.trace, name, V4, h.v4, p.v4, cfg.failureThreshold, cfg.recoveryThreshold);
    if Ipv6Uplink(cfg.uplinks[u]) {
      ProbeTracked(c.trace, c'.trace, name, V6, h.v6, p.v6, cfg.failureThreshold, cfg.recoveryThreshold);
    }
    forall g ensures if Changed(cfg, c, u, p, g) then Flipped(c'.trace, name, g, LinkOf(HealthAt(cfg, c', u), g))
                     else LinkOk(cfg, c', u, g) {
      match g
      case V4 =>
      case V6 =>
    }
  }

  lemma OtherNames(cfg: Config, u: nat)
    requires Accepted(cfg) && u < |cfg.uplinks|
    ensures forall v :: 0 <= v < |cfg.uplinks| && v != u ==> NameOf(cfg, v) != NameOf(cfg, u)
  {
  }

  /** The report of a flipped link says what the link is by then: reconciling may have forced it DOWN again. */
  lemma {:induction false} ReportTracked(cfg: Config, c: Core, r: Core, u: nat, f: Family)
    requires Accepted(cfg) && u < |cfg.uplinks|
    requires Flipped(c.trace, NameOf(cfg, u), f, LinkOf(HealthAt(cfg, c, u), f))
    requires SameReadings(cfg, c.trace, r.trace, u, f)
    requires if HealthAt(cfg, r, u) == HealthAt(cfg, c, u) then OkRun(r.trace, NameOf(cfg, u), f) == OkRun(c.trace, NameOf(cfg, u), f)
             else LinkOf(HealthAt(cfg, r, u), f) == FORCED
    ensures var c' := Report(cfg, r, u, f);
            LinkOk(cfg, c', u, f) && SameReadings(cfg, c.trace, c'.trace, u, f)
  {
    hide LastWan, OkRun, Threshold, Earned, Accepted;
    PushWan(cfg, r.trace, u, f, LinkOf(HealthAt(cfg, r, u), f).state);
    var t, t' := c.trace, Report(cfg, r, u, f).trace;
    forall v, g | 0 <= v < |cfg.uplinks| && (v != u || g != f)
      ensures LastWan(t', NameOf(cfg, v), g) == LastWan(t, NameOf(cfg, v), g) && OkRun(t', NameOf(cfg, v), g) == OkRun(t, NameOf(cfg, v), g)
    {
      assert LastWan(r.trace, NameOf(cfg, v), g) == LastWan(t, NameOf(cfg, v), g);
    }
  }

  lemma Report4(cfg: Config, c: Core, u: nat, l: Leases)
    requires Accepted(cfg) && u < |cfg.uplinks|
    requires Flipped(c.trace, NameOf(cfg, u), V4, HealthAt(cfg, c, u).v4)
    ensures var c' := Report(cfg, Reconcile4(cfg, c, u, l), u, V4);
            LinkOk(cfg, c', u, V4) && SameReadings(cfg, c.trace, c'.trace, u, V4)
  {
    hide LastWan, OkRun, Threshold, Earned, Accepted, Reconcile4, Report, Flipped, SameReadings;
    Links4(cfg, c, u, l);
    Frame4(cfg, c, u, l);
    ReportTracked(cfg, c, Reconcile4(cfg, c, u, l), u, V4);
  }

  lemma Report6(cfg: Config, c: Core, u: nat, l: Leases)
    requires Accepted(cfg) && u < |cfg.uplinks|
    requires Flipped(c.trace, NameOf(cfg, u), V6, HealthAt(cfg, c, u).v6)
    ensures var c' := Report(cfg, Reconcile6(cfg, c, u, l), u, V6);
            LinkOk(cfg, c', u, V6) && SameReadings(cfg, c.trace, c'.trace, u, V6)
  {
    hide LastWan, OkRun, Threshold, Earned, Accepted, Reconcile6, Report, Flipped, SameReadings;
    Links6(cfg, c, u, l);
    ReportTracked(cfg, c, Reconcile6(cfg, c, u, l), u, V6);
  }

  /** The record is judged by health keys, ownership and delegations alone. */
  lemma RecordFrom(cfg: Config, c: Core, c': Core)
    requires RecordOk(cfg, c) && c'.own == c.own && c'.health.Keys == c.health.Keys
    requires forall n :: LastPd(c'.trace, n) == LastPd(c.trace, n)
    ensures RecordOk(cfg, c')
  {
    hide LastPd, InstalledOk, Names;
  }

  lemma CycleOneRecord(cfg: Config, c: Core, u: nat, p: Pings, l: Leases)
    requires Accepted(cfg) && u < |cfg.uplinks| && RecordOk(cfg, c) && LinksOk(cfg, c)
    ensures RecordOk(cfg, CycleOne(cfg, c, u, p, l))
  {
    hide LastWan, OkRun, LastPd, Threshold, Earned, Accepted, InstalledOk, Reconcile4, Reconcile6, Reconcile.Observe;
    var c1 := Reconcile.Observe(cfg, c, u, p);
    ObserveLinks(cfg, c, u, p);
    RecordFrom(cfg, c, c1);
    var c2 := c1;
    if Changed(cfg, c, u, p, V4) {
      Record4(cfg, c1, u, l);
      var r := Reconcile4(cfg, c1, u, l);
      c2 := Report(cfg, r, u, V4);
      Pushed(r.trace, Fired(Wan(NameOf(cfg, u), V4, LinkOf(HealthAt(cfg, r, u), V4).state)));
      RecordFrom(cfg, r, c2);
    }
    if Changed(cfg, c, u, p, V6) {
      Record6(cfg, c2, u, l);
      var r := Reconcile6(cfg, c2, u, l);
      Pushed(r.trace, Fired(Wan(NameOf(cfg, u), V6, LinkOf(HealthAt(cfg, r, u), V6).state)));
      RecordFrom(cfg, r, Report(cfg, r, u, V6));
    }
  }

  /** After IPv4 was dealt with: IPv4 of `u` tracked, IPv6 of `u` tracked or flipped, the others tracked. */
  lemma CycleOneLinks(cfg: Config, c: Core, u: nat, p: Pings, l: Leases)
    requires Accepted(cfg) && u < |cfg.uplinks| && LinksOk(cfg, c)
    ensures LinksOk(cfg, CycleOne(cfg, c, u, p, l))
    ensures OnlyUplink(cfg, c, CycleOne(cfg, c, u, p, l), u)
  {
    hide LastWan, OkRun, LastPd, Threshold, Earned, Accepted, Target4, Target6, Trace6, Delegation;
    var name := NameOf(cfg, u);
    var c1 := Reconcile.Observe(cfg, c, u, p);
    ObserveLinks(cfg, c, u, p);
    var c2 := if Changed(cfg, c, u, p, V4) then Report(cfg, Reconcile4(cfg, c1, u, l), u, V4) else c1;
    if Changed(cfg, c, u, p, V4) {
      Frame4(cfg, c1, u, l);
      Report4(cfg, c1, u, l);
    }
    OthersTracked(cfg, c1, c2, u, V4);
    assert LinkOk(cfg, c2, u, V4);
    assert if Changed(cfg, c, u, p, V6) then Flipped(c2.trace, name, V6, HealthAt(cfg, c2, u).v6) else LinkOk(cfg, c2, u, V6);
    var c3 := CycleOne(cfg, c, u, p, l);
    if Changed(cfg, c, u, p, V6) {
      Frame6(cfg, c2, u, l);
      Report6(cfg, c2, u, l);
      OthersTracked(cfg, c2, c3, u, V6);
    }
    forall v, g | 0 <= v < |cfg.uplinks| ensures LinkOk(cfg, c3, v, g) {
      assert g == V4 || g == V6;
    }
  }

  lemma OthersTracked(cfg: Config, c: Core, c': Core, u: nat, f: Family)
    requires u < |cfg.uplinks| && OnlyUplink(cfg, c, c', u)
    requires c' == c || SameReadings(cfg, c.trace, c'.trace, u, f)
    ensures forall v, g :: 0 <= v < |cfg.uplinks| && v != u && LinkOk(cfg, c, v, g) ==> LinkOk(cfg, c', v, g)
  {
    hide LastWan, OkRun, Threshold, Earned;
  }

  lemma CycleOneSettled(cfg: Config, c: Core, u: nat, p: Pings, l: Leases)
    requires Accepted(cfg) && u < |cfg.uplinks| && SettledAt(cfg, c, u) && RecordOk(cfg, c)
    ensures SettledAt(cfg, CycleOne(cfg, c, u, p, l), u)
  {
    hide LastPd, Accepted, Names;
    var c1 := Reconcile.Observe(cfg, c, u, p);
    Frame4(cfg, c1, u, l);
    var c2 := if Changed(cfg, c, u, p, V4) then Report(cfg, Reconcile4(cfg, c1, u, l), u, V4) else c1;
    Frame6(cfg, c2, u, l);
  }

  lemma CycleOneKeeps(cfg: Config, c: Core, u: nat, p: Pings, l: Leases)
    requires Accepted(cfg) && u < |cfg.uplinks| && CoreOk(cfg, c)
    ensures CoreOk(cfg, CycleOne(cfg, c, u, p, l))
  {
    hide Accepted, RecordOk, LinksOk, CycleOne, Settled;
    CycleOneRecord(cfg, c, u, p, l);
    CycleOneLinks(cfg, c, u, p, l);
    CycleOneSettled(cfg, c, u, p, l);
    forall v | 0 <= v < |cfg.uplinks| ensures SettledAt(cfg, CycleOne(cfg, c, u, p, l), v) {
      assert SettledAt(cfg, c, v);
    }
  }

  lemma {:induction false} CycleKeeps(cfg: Config, c: Core, probes: Probing, files: Snapshot, i: nat)
    requires Accepted(cfg) && i <= |cfg.uplinks| && CoreOk(cfg, c)
    ensures CoreOk(cfg, Cycle(cfg, c, probes, files, i))
  {
    hide CoreOk, Accepted, CycleOne;
    if i > 0 {
      CycleKeeps(cfg, c, probes, files, i - 1);
      var name := NameOf(cfg, i - 1);
      CycleOneKeeps(cfg, Cycle(cfg, c, probes, files, i - 1), i - 1, PingsOf(probes, name), Read(files, name));
    }
  }

  // ---------------------------------------------------------------- teardown, one uplink

  /** The record after the macvlan rules of the first `n` networks were removed. */
  function MvGone(cfg: Config, u: nat, i: Installed, n: nat): Installed
    requires n <= |cfg.networks|
  {
    i.(fwd := i.fwd - MvSet(cfg, u, n), prohibit := i.prohibit - MvSet(cfg, u, n))
  }

  lemma MvGoneStep(cfg: Config, u: nat, i: Installed, n: nat)
    requires n < |cfg.networks|
    ensures var j, mv := MvGone(cfg, u, i, n), Mv(cfg, u, n);
            MvGone(cfg, u, i, n + 1) == j.(fwd := j.fwd - {mv}, prohibit := j.prohibit - {mv})
  {
    hide Mv, MvSet;
    NarrowStep(cfg, u, n, i.fwd, None);
    var mvs, mv := MvSet(cfg, u, n), Mv(cfg, u, n);
    assert i.fwd - (mvs + {mv}) == i.fwd - mvs - {mv};
    assert i.prohibit - (mvs + {mv}) == i.prohibit - mvs - {mv};
  }

  lemma MvGoneEnds(cfg: Config, u: nat, i: Installed)
    ensures MvGone(cfg, u, i, 0) == i
  {
    assert i.fwd - MvSet(cfg, u, 0) == i.fwd && i.prohibit - MvSet(cfg, u, 0) == i.prohibit;
  }

  lemma NoIpv6(cfg: Config, u: nat, i: Installed, lastPd: Option<Prefix>)
    requires u < |cfg.uplinks| && InstalledOk(cfg, u, i, lastPd) && !Ipv6Uplink(cfg.uplinks[u])
    ensures !i.route6
  {
  }

  /** What teardown leaves of a record that the history accounts for is nothing. */
  lemma NothingLeft(cfg: Config, u: nat, i: Installed, lastPd: Option<Prefix>)
    requires u < |cfg.uplinks| && InstalledOk(cfg, u, i, lastPd)
    ensures var j := i.(gw4 := None, lo4 := None);
            if Ipv6Uplink(cfg.uplinks[u])
            then MvGone(cfg, u, j.(route6 := false, lo6 := None, pdLo6 := None), |cfg.networks|) == NOTHING
            else j == NOTHING
  {
    hide Mv;
    assert i.fwd - AllMvs(cfg, u) == map[];
    assert i.prohibit - AllMvs(cfg, u) == {};
  }

  /** The records of the first `i` uplinks are empty, the others as they were. */
  ghost predicate TornDown(cfg: Config, o: Owned, sh: map<string, Installed>, r6: map<string, Option<Route>>, i: nat)
    requires i <= |cfg.uplinks|
  {
    && sh.Keys == r6.Keys == Names(cfg) == o.sh.Keys
    && (forall u :: 0 <= u < i ==> sh[NameOf(cfg, u)] == NOTHING && r6[NameOf(cfg, u)] == None)
    && (forall u :: i <= u < |cfg.uplinks| ==> sh[NameOf(cfg, u)] == o.sh[NameOf(cfg, u)])
  }

  lemma TornDownStart(cfg: Config, c: Core)
    requires RecordOk(cfg, c)
    ensures TornDown(cfg, c.own, c.own.sh, c.own.r6, 0)
  {
  }

  lemma TornDownStep(cfg: Config, o: Owned, sh: map<string, Installed>, r6: map<string, Option<Route>>, i: nat)
    requires i < |cfg.uplinks| && TornDown(cfg, o, sh, r6, i)
    requires forall u :: 0 <= u < |cfg.uplinks| && u != i ==> cfg.uplinks[u].name != cfg.uplinks[i].name
    ensures NameOf(cfg, i) in sh && NameOf(cfg, i) in o.sh && sh[NameOf(cfg, i)] == o.sh[NameOf(cfg, i)]
    ensures TornDown(cfg, o, sh[NameOf(cfg, i) := NOTHING], r6[NameOf(cfg, i) := None], i + 1)
  {
  }

  lemma TornDownEnd(cfg: Config, o: Owned, sh: map<string, Installed>, r6: map<string, Option<Route>>)
    requires TornDown(cfg, o, sh, r6, |cfg.uplinks|)
    ensures sh == NothingOwned(cfg).sh && r6 == NothingOwned(cfg).r6
  {
    forall s | s in Names(cfg) ensures sh[s] == NOTHING && r6[s] == None {
      var u :| 0 <= u < |cfg.uplinks| && cfg.uplinks[u].name == s;
      assert NameOf(cfg, u) == s;
    }
  }
}
