/**
 * What a reconcile pass leaves does not depend on what was there before: health aside, it is a function of the files
 * and of the last delegation read. Hence a second pass over unchanged files changes nothing.
 */
module Convergence {
  import opened Wrappers
  import opened Configuration
  import opened Priority
  import opened Naming
  import opened StateMachine
  import opened State
  import opened Routing
  import opened Shadow
  import opened Trace
  import opened Reconcile
  import opened Invariants

  // ---------------------------------------------------------------- the declarative target

  /** The record of uplink `u` by the rules of the design, without reference to any earlier record. */
  function Declared(cfg: Config, u: nat, h: Health, l: Leases, lastPd: Option<Prefix>): Installed
    requires u < |cfg.uplinks|
  {
    var routed4 := l.v4.Some? && h.v4.state.Up?;
    var routed6 := Ipv6Uplink(cfg.uplinks[u]) && h.v6.state.Up?;
    Installed(
      if routed4 then Some(l.v4.value.gateway) else None,
      if routed4 && l.v4.value.address != "" then Some(l.v4.value.address) else None,
      Ipv6Uplink(cfg.uplinks[u]) && l.ra.Some?,
      if routed6 then LoSource6(l) else None,
      if routed6 then Delegation(l) else None,
      FwdOf(cfg, u, lastPd),
      if Ipv6Uplink(cfg.uplinks[u]) && l.pd.Some? && cfg.rejectWrongPdSrc then AllMvs(cfg, u) else {})
  }

  function DeclaredRoute6(cfg: Config, u: nat, l: Leases): Option<Route>
    requires u < |cfg.uplinks|
  {
    if Ipv6Uplink(cfg.uplinks[u]) then TargetRoute6(cfg.uplinks[u], l) else None
  }

  /** The health of an uplink after a pass: a family without any record is DOWN. */
  function Passed(cfg: Config, u: nat, h: Health, l: Leases): Health
    requires u < |cfg.uplinks|
  {
    if Ipv6Uplink(cfg.uplinks[u]) then LeaseHealth6(LeaseHealth4(h, l), l) else LeaseHealth4(h, l)
  }

  function PdAfter(cfg: Config, u: nat, lastPd: Option<Prefix>, l: Leases): Option<Prefix>
    requires u < |cfg.uplinks|
  {
    if Ipv6Uplink(cfg.uplinks[u]) && l.pd.Some? then Delegation(l) else lastPd
  }

  // ---------------------------------------------------------------- one uplink

  lemma OneIsDeclared(cfg: Config, c: Core, u: nat, l: Leases)
    requires Accepted(cfg) && u < |cfg.uplinks| && RecordOk(cfg, c)
    ensures var c' := ReconcileOne(cfg, c, u, l);
            && ShOf(cfg, c'.own, u) == Declared(cfg, u, HealthAt(cfg, c', u), l, PdAfter(cfg, u, LastPd(c.trace, NameOf(cfg, u)), l))
            && Route6At(cfg, c'.own, u) == DeclaredRoute6(cfg, u, l)
            && HealthAt(cfg, c', u) == Passed(cfg, u, HealthAt(cfg, c, u), l)
  {
    hide Accepted, LastPd, AllMvs, FwdOf, TargetRoute6, LoSource6, Delegation;
    var lastPd := LastPd(c.trace, NameOf(cfg, u));
    var c1 := Reconcile4(cfg, c, u, l);
    Frame4(cfg, c, u, l);
    Frame6(cfg, c1, u, l);
    assert InstalledOk(cfg, u, ShOf(cfg, c.own, u), lastPd);
    Installed4(cfg, u, HealthAt(cfg, c1, u), ShOf(cfg, c.own, u), l, lastPd);
    if Ipv6Uplink(cfg.uplinks[u]) {
      Installed6(cfg, u, HealthAt(cfg, ReconcileOne(cfg, c, u, l), u), ShOf(cfg, c1.own, u), l, lastPd);
    }
  }

  lemma OneKeepsRecord(cfg: Config, c: Core, u: nat, l: Leases)
    requires Accepted(cfg) && u < |cfg.uplinks| && RecordOk(cfg, c)
    ensures var c' := ReconcileOne(cfg, c, u, l);
            && RecordOk(cfg, c') && OnlyUplink(cfg, c, c', u)
            && forall v :: 0 <= v < |cfg.uplinks| ==>
                 LastPd(c'.trace, NameOf(cfg, v)) ==
                 if v == u then PdAfter(cfg, u, LastPd(c.trace, NameOf(cfg, u)), l) else LastPd(c.trace, NameOf(cfg, v))
  {
    hide Accepted, LastPd, InstalledOk, Target4, Target6, LeaseHealth4, LeaseHealth6, TraceForced, RecordOk, Delegation;
    var name, h := NameOf(cfg, u), HealthAt(cfg, c, u);
    var c1 := Reconcile4(cfg, c, u, l);
    Record4(cfg, c, u, l);
    Record6(cfg, c1, u, l);
    Frame4(cfg, c, u, l);
    Frame6(cfg, c1, u, l);
    Pds4(c.trace, name, LeaseHealth4(h, l) != h);
    Pds6(cfg, c1.trace, u, LeaseHealth6(HealthAt(cfg, c1, u), l) != HealthAt(cfg, c1, u), l);
  }

  /** No event without a change of health. */
  lemma OneFiresForced(cfg: Config, c: Core, u: nat, l: Leases)
    requires Accepted(cfg) && u < |cfg.uplinks|
    requires Passed(cfg, u, HealthAt(cfg, c, u), l) == HealthAt(cfg, c, u)
    ensures Events(ReconcileOne(cfg, c, u, l).trace) == Events(c.trace)
  {
    hide Accepted, LastPd, LastWan, OkRun, Threshold, Earned, Target4, Own6, Events;
    Frame4(cfg, c, u, l);
    var t := Reconcile4(cfg, c, u, l).trace;
    if l.pd.Some? {
      Pushed(t, PdSeen(NameOf(cfg, u), Delegation(l).value));
    }
  }

  // ---------------------------------------------------------------- a whole pass

  /** After the first `i` uplinks: those are as declared, the others as they were. */
  ghost predicate Converged(cfg: Config, c: Core, c': Core, files: Snapshot, u: nat, i: nat)
    requires u < |cfg.uplinks|
  {
    var l, lastPd, lastPd' := Read(files, NameOf(cfg, u)), LastPd(c.trace, NameOf(cfg, u)), LastPd(c'.trace, NameOf(cfg, u));
    if u < i then
      && HealthAt(cfg, c', u) == Passed(cfg, u, HealthAt(cfg, c, u), l)
      && lastPd' == PdAfter(cfg, u, lastPd, l)
      && ShOf(cfg, c'.own, u) == Declared(cfg, u, HealthAt(cfg, c', u), l, lastPd')
      && Route6At(cfg, c'.own, u) == DeclaredRoute6(cfg, u, l)
    else
      HealthAt(cfg, c', u) == HealthAt(cfg, c, u) && lastPd' == lastPd
  }

  lemma {:induction false} AllConverge(cfg: Config, c: Core, files: Snapshot, i: nat)
    requires Accepted(cfg) && i <= |cfg.uplinks| && RecordOk(cfg, c)
    ensures var c' := ReconcileAll(cfg, c, files, i);
            RecordOk(cfg, c') && forall u :: 0 <= u < |cfg.uplinks| ==> Converged(cfg, c, c', files, u, i)
  {
    hide Accepted, RecordOk, LastPd, ReconcileOne, Declared, DeclaredRoute6, Passed, PdAfter;
    if i > 0 {
      AllConverge(cfg, c, files, i - 1);
      var before, l := ReconcileAll(cfg, c, files, i - 1), Read(files, NameOf(cfg, i - 1));
      OneIsDeclared(cfg, before, i - 1, l);
      OneKeepsRecord(cfg, before, i - 1, l);
      forall u | 0 <= u < |cfg.uplinks| ensures Converged(cfg, c, ReconcileAll(cfg, c, files, i), files, u, i) {
        assert Converged(cfg, c, before, files, u, i - 1);
      }
    }
  }

  /** The last delegation matters where it is remembered: with source checking, for IPv6 uplinks that have none now. */
  ghost predicate SameMemoryAt(cfg: Config, c: Core, d: Core, files: Snapshot, u: nat)
    requires u < |cfg.uplinks|
  {
    cfg.rejectWrongPdSrc && Ipv6Uplink(cfg.uplinks[u]) && Read(files, NameOf(cfg, u)).pd.None? ==>
      LastPd(c.trace, NameOf(cfg, u)) == LastPd(d.trace, NameOf(cfg, u))
  }

  ghost predicate SameMemory(cfg: Config, c: Core, d: Core, files: Snapshot) {
    forall u :: 0 <= u < |cfg.uplinks| ==> SameMemoryAt(cfg, c, d, files, u)
  }

  ghost predicate SameHealth(cfg: Config, c: Core, d: Core) {
    forall u :: 0 <= u < |cfg.uplinks| ==> HealthAt(cfg, c, u) == HealthAt(cfg, d, u)
  }

  /** Two passes over the same files that end with the same health end with the same record iff, before them, the last
      delegations agreed wherever they are still remembered. */
  lemma {:induction false} PassDetermines(cfg: Config, c: Core, d: Core, files: Snapshot)
    requires Accepted(cfg) && RecordOk(cfg, c) && RecordOk(cfg, d)
    requires SameHealth(cfg, ReconcileAll(cfg, c, files, |cfg.uplinks|), ReconcileAll(cfg, d, files, |cfg.uplinks|))
    ensures ReconcileAll(cfg, c, files, |cfg.uplinks|).own == ReconcileAll(cfg, d, files, |cfg.uplinks|).own <==>
            SameMemory(cfg, c, d, files)
  {
    hide Accepted, LastPd, ReconcileAll, Declared, DeclaredRoute6, Passed, PdAfter, InstalledOk, Flagged6, FwdOf;
    var n := |cfg.uplinks|;
    var c', d' := ReconcileAll(cfg, c, files, n), ReconcileAll(cfg, d, files, n);
    AllConverge(cfg, c, files, n);
    AllConverge(cfg, d, files, n);
    forall u | 0 <= u < n
      ensures Route6At(cfg, c'.own, u) == Route6At(cfg, d'.own, u)
      ensures ShOf(cfg, c'.own, u) == ShOf(cfg, d'.own, u) <==> SameMemoryAt(cfg, c, d, files, u)
    {
      assert Converged(cfg, c, c', files, u, n) && Converged(cfg, d, d', files, u, n);
      DeclaredRemembers(cfg, u, HealthAt(cfg, c', u), Read(files, NameOf(cfg, u)), LastPd(c.trace, NameOf(cfg, u)),
                        LastPd(d.trace, NameOf(cfg, u)));
    }
    if SameMemory(cfg, c, d, files) {
      SameOwned(cfg, c'.own, d'.own);
    }
  }

  lemma DeclaredRemembers(cfg: Config, u: nat, h: Health, l: Leases, a: Option<Prefix>, b: Option<Prefix>)
    requires Accepted(cfg) && u < |cfg.uplinks|
    ensures Declared(cfg, u, h, l, PdAfter(cfg, u, a, l)) == Declared(cfg, u, h, l, PdAfter(cfg, u, b, l)) <==>
            (cfg.rejectWrongPdSrc && Ipv6Uplink(cfg.uplinks[u]) && l.pd.None? ==> a == b)
  {
    hide Accepted, FwdOf;
    FwdRemembers(cfg, u, PdAfter(cfg, u, a, l), PdAfter(cfg, u, b, l));
  }

  /** With source checking the accept rules of an IPv6 uplink remember the last delegation exactly. */
  lemma FwdRemembers(cfg: Config, u: nat, a: Option<Prefix>, b: Option<Prefix>)
    requires Accepted(cfg) && u < |cfg.uplinks|
    ensures FwdOf(cfg, u, a) == FwdOf(cfg, u, b) <==> a == b || !cfg.rejectWrongPdSrc || !Ipv6Uplink(cfg.uplinks[u])
  {
    hide Mv, UplinksDistinct;
    var mv := Mv(cfg, u, 0);
    assert mv in AllMvs(cfg, u);
    assert cfg.rejectWrongPdSrc && Ipv6Uplink(cfg.uplinks[u]) ==>
             GetOr(FwdOf(cfg, u, a), mv, None) == a && GetOr(FwdOf(cfg, u, b), mv, None) == b;
  }

  lemma SameOwned(cfg: Config, o: Owned, p: Owned)
    requires o.sh.Keys == p.sh.Keys == o.r6.Keys == p.r6.Keys == Names(cfg) && o.on4 == p.on4 && o.on6 == p.on6
    requires forall u :: 0 <= u < |cfg.uplinks| ==> ShOf(cfg, o, u) == ShOf(cfg, p, u) && Route6At(cfg, o, u) == Route6At(cfg, p, u)
    ensures o == p
  {
    forall s | s in Names(cfg) ensures o.sh[s] == p.sh[s] && o.r6[s] == p.r6[s] {
      var u :| 0 <= u < |cfg.uplinks| && cfg.uplinks[u].name == s;
      assert ShOf(cfg, o, u) == ShOf(cfg, p, u) && Route6At(cfg, o, u) == Route6At(cfg, p, u);
    }
    assert o.sh == p.sh && o.r6 == p.r6;
  }

  /** Likewise for the kernels, down to the last rule and route, whatever the two daemons went through. */
  lemma {:induction false} SameKernel(cfg: Config, c: Core, d: Core, files: Snapshot, k: Tables, l: Tables, base: Tables)
    requires Accepted(cfg) && RecordOk(cfg, c) && RecordOk(cfg, d)
    requires var c', d' := ReconcileAll(cfg, c, files, |cfg.uplinks|), ReconcileAll(cfg, d, files, |cfg.uplinks|);
             Agrees(k, cfg, c'.own, base) && Agrees(l, cfg, d'.own, base) && SameHealth(cfg, c', d')
    ensures k == l <==> SameMemory(cfg, c, d, files)
  {
    hide Accepted, LastPd, ReconcileAll, RecordOk, Agrees, SameHealth, Converged;
    var n := |cfg.uplinks|;
    var c', d' := ReconcileAll(cfg, c, files, n), ReconcileAll(cfg, d, files, n);
    PassDetermines(cfg, c, d, files);
    if c'.own == d'.own {
      AgreementIsExact(k, l, cfg, c'.own, base);
    } else {
      var u :| 0 <= u < n && !SameMemoryAt(cfg, c, d, files, u);
      AllConverge(cfg, c, files, n);
      AllConverge(cfg, d, files, n);
      assert Converged(cfg, c, c', files, u, n) && Converged(cfg, d, d', files, u, n);
      DifferentRule(cfg, c, c', d, d', files, u, k, l, base);
    }
  }

  /** A delegation remembered differently shows in the accept rule of the uplink's first macvlan. */
  lemma DifferentRule(cfg: Config, c: Core, c': Core, d: Core, d': Core, files: Snapshot, u: nat, k: Tables, l: Tables, base: Tables)
    requires Accepted(cfg) && u < |cfg.uplinks| && !SameMemoryAt(cfg, c, d, files, u)
    requires Converged(cfg, c, c', files, u, |cfg.uplinks|) && Converged(cfg, d, d', files, u, |cfg.uplinks|)
    requires Agrees(k, cfg, c'.own, base) && Agrees(l, cfg, d'.own, base)
    ensures k != l
  {
    hide UplinksDistinct, LastPd, Agrees, Mv, Prio6, AllMvs, LoSource6;
    var a, b := LastPd(c.trace, NameOf(cfg, u)), LastPd(d.trace, NameOf(cfg, u));
    var mv, fwd, fwd' := Mv(cfg, u, 0), FwdOf(cfg, u, a), FwdOf(cfg, u, b);
    FirstMv(cfg, u);
    RulesOfSlot6(k, cfg, c'.own, base, Fwd6(u, 0));
    RulesOfSlot6(l, cfg, d'.own, base, Fwd6(u, 0));
    assert ShOf(cfg, c'.own, u).fwd == fwd && ShOf(cfg, d'.own, u).fwd == fwd';
    assert GetOr(fwd, mv, None) == a && GetOr(fwd', mv, None) == b;
    assert Want6(cfg, c'.own, Fwd6(u, 0)) != Want6(cfg, d'.own, Fwd6(u, 0));
  }

  lemma FirstMv(cfg: Config, u: nat)
    requires |cfg.networks| > 0
    ensures Mv(cfg, u, 0) in AllMvs(cfg, u)
  {
  }

  // ---------------------------------------------------------------- a second pass

  /** The same records, read at another time. */
  ghost predicate SameRecords(files: Snapshot, files': Snapshot) {
    forall s :: Read(files', s).v4 == Read(files, s).v4 && Read(files', s).ra == Read(files, s).ra
                && Read(files', s).pd == Read(files, s).pd && Read(files', s).na == Read(files, s).na
  }

  lemma {:induction false} SettledFiresNothing(cfg: Config, c: Core, files: Snapshot, i: nat)
    requires Accepted(cfg) && i <= |cfg.uplinks| && RecordOk(cfg, c)
    requires forall u :: 0 <= u < |cfg.uplinks| ==> Passed(cfg, u, HealthAt(cfg, c, u), Read(files, NameOf(cfg, u))) == HealthAt(cfg, c, u)
    ensures Events(ReconcileAll(cfg, c, files, i).trace) == Events(c.trace)
  {
    hide Accepted, RecordOk, LastPd, ReconcileOne, Declared, DeclaredRoute6, Passed, PdAfter, Events;
    if i > 0 {
      SettledFiresNothing(cfg, c, files, i - 1);
      AllConverge(cfg, c, files, i - 1);
      var before := ReconcileAll(cfg, c, files, i - 1);
      assert Converged(cfg, c, before, files, i - 1, i - 1);
      OneFiresForced(cfg, before, i - 1, Read(files, NameOf(cfg, i - 1)));
    }
  }

  /** Repeating a pass over unchanged files fires no event and changes nothing but the expiry of IPv6 routes. */
  lemma {:induction false} SecondPass(cfg: Config, c: Core, files: Snapshot, files': Snapshot)
    requires Accepted(cfg) && RecordOk(cfg, c) && SameRecords(files, files')
    ensures var c' := ReconcileAll(cfg, c, files, |cfg.uplinks|);
            var c'' := ReconcileAll(cfg, c', files', |cfg.uplinks|);
            && c''.health == c'.health && c''.own.sh == c'.own.sh
            && c''.own.on4 == c'.own.on4 && c''.own.on6 == c'.own.on6
            && Events(c''.trace) == Events(c'.trace)
            && forall u :: 0 <= u < |cfg.uplinks| ==>
                 match Route6At(cfg, c'.own, u)
                 case Some(r) =>
                   && Route6At(cfg, c''.own, u).Some?
                   && Route6At(cfg, c''.own, u).value == r.(expires := Route6At(cfg, c''.own, u).value.expires)
                 case None => Route6At(cfg, c''.own, u).None?
  {
    hide Accepted, LastPd, ReconcileAll, InstalledOk, Flagged6, FwdOf, AllMvs, Events, LoSource6, Declared, Passed, PdAfter;
    var n := |cfg.uplinks|;
    var c' := ReconcileAll(cfg, c, files, n);
    var c'' := ReconcileAll(cfg, c', files', n);
    AllConverge(cfg, c, files, n);
    AllConverge(cfg, c', files', n);
    forall u | 0 <= u < n
      ensures Passed(cfg, u, HealthAt(cfg, c', u), Read(files', NameOf(cfg, u))) == HealthAt(cfg, c', u)
      ensures HealthAt(cfg, c'', u) == HealthAt(cfg, c', u) && ShOf(cfg, c''.own, u) == ShOf(cfg, c'.own, u)
    {
      assert Converged(cfg, c, c', files, u, n) && Converged(cfg, c', c'', files', u, n);
      PassedTwice(cfg, u, HealthAt(cfg, c, u), Read(files, NameOf(cfg, u)), Read(files', NameOf(cfg, u)), LastPd(c.trace, NameOf(cfg, u)));
    }
    SettledFiresNothing(cfg, c', files', n);
    forall u | 0 <= u < n
      ensures Route6At(cfg, c'.own, u) == DeclaredRoute6(cfg, u, Read(files, NameOf(cfg, u)))
              && Route6At(cfg, c''.own, u) == DeclaredRoute6(cfg, u, Read(files', NameOf(cfg, u)))
    {
      assert Converged(cfg, c, c', files, u, n) && Converged(cfg, c', c'', files', u, n);
    }
    SameByName(cfg, c', c'');
  }

  lemma PassedTwice(cfg: Config, u: nat, h: Health, l: Leases, l': Leases, lastPd: Option<Prefix>)
    requires u < |cfg.uplinks| && l'.v4 == l.v4 && l'.ra == l.ra && l'.pd == l.pd && l'.na == l.na
    ensures Passed(cfg, u, Passed(cfg, u, h, l), l') == Passed(cfg, u, h, l)
    ensures PdAfter(cfg, u, PdAfter(cfg, u, lastPd, l), l') == PdAfter(cfg, u, lastPd, l)
    ensures forall k, p :: Declared(cfg, u, k, l', p) == Declared(cfg, u, k, l, p)
  {
  }

  lemma SameByName(cfg: Config, c: Core, c': Core)
    requires c.health.Keys == c'.health.Keys == c.own.sh.Keys == c'.own.sh.Keys == Names(cfg)
    requires forall u :: 0 <= u < |cfg.uplinks| ==>
               HealthAt(cfg, c', u) == HealthAt(cfg, c, u) && ShOf(cfg, c'.own, u) == ShOf(cfg, c.own, u)
    ensures c'.health == c.health && c'.own.sh == c.own.sh
  {
    forall s | s in Names(cfg) ensures c'.health[s] == c.health[s] && c'.own.sh[s] == c.own.sh[s] {
      var u :| 0 <= u < |cfg.uplinks| && cfg.uplinks[u].name == s;
      assert HealthAt(cfg, c', u) == HealthAt(cfg, c, u) && ShOf(cfg, c'.own, u) == ShOf(cfg, c.own, u);
    }
  }

  // ---------------------------------------------------------------- the kernel is not a function of the files

  /** The files as they were while uplink `name` had delegation `pd`. */
  function WithPd(files: Snapshot, name: string, pd: PdState): Snapshot {
    files[name := Read(files, name).(pd := Some(pd))]
  }

  /** A run that once saw a delegation and a run that never did, over the same files in the end, leave different records. */
  lemma {:induction false} DelegationLeavesTrace(cfg: Config, files: Snapshot, u: nat, pd: PdState)
    requires Accepted(cfg) && cfg.rejectWrongPdSrc && u < |cfg.uplinks| && Ipv6Uplink(cfg.uplinks[u])
    requires Read(files, NameOf(cfg, u)).pd.None?
    ensures var n := |cfg.uplinks|;
            var seen := ReconcileAll(cfg, Setup(cfg, []), WithPd(files, NameOf(cfg, u), pd), n);
            var never := ReconcileAll(cfg, Setup(cfg, []), files, n);
            ReconcileAll(cfg, seen, files, n).own != ReconcileAll(cfg, never, files, n).own
  {
    hide UplinksDistinct, ReconcileAll, Setup, RecordOk, LastPd, Declared, FwdOf, DeclaredRoute6, Passed;
    var n, name := |cfg.uplinks|, NameOf(cfg, u);
    var start := Setup(cfg, []);
    var seen, never := ReconcileAll(cfg, start, WithPd(files, name, pd), n), ReconcileAll(cfg, start, files, n);
    SetupKeeps(cfg, []);
    NothingSeen(cfg, name);
    AllConverge(cfg, start, WithPd(files, name, pd), n);
    AllConverge(cfg, start, files, n);
    AllConverge(cfg, seen, files, n);
    AllConverge(cfg, never, files, n);
    var c, d := ReconcileAll(cfg, seen, files, n), ReconcileAll(cfg, never, files, n);
    assert Converged(cfg, start, seen, WithPd(files, name, pd), u, n) && Converged(cfg, start, never, files, u, n);
    assert Converged(cfg, seen, c, files, u, n) && Converged(cfg, never, d, files, u, n);
    FwdRemembers(cfg, u, LastPd(c.trace, name), LastPd(d.trace, name));
    DeclaredFwd(cfg, u, HealthAt(cfg, c, u), Read(files, name), LastPd(c.trace, name));
    DeclaredFwd(cfg, u, HealthAt(cfg, d, u), Read(files, name), LastPd(d.trace, name));
  }

  lemma {:induction false} NothingSeen(cfg: Config, name: string)
    ensures LastPd(Setup(cfg, []).trace, name) == None
  {
  }

  lemma DeclaredFwd(cfg: Config, u: nat, h: Health, l: Leases, lastPd: Option<Prefix>)
    requires u < |cfg.uplinks|
    ensures Declared(cfg, u, h, l, lastPd).fwd == FwdOf(cfg, u, lastPd)
  {
  }
}
