/** Reload against a fresh start, and when teardown undoes setup. */
module Reload {
  import opened Wrappers
  import opened Configuration
  import opened Priority
  import opened Naming
  import opened State
  import opened Routing
  import opened Shadow
  import opened Radvd
  import opened Reconcile
  import opened DaemonSpec

  // ---------------------------------------------------------------- reload is a restart

  lemma OneIgnoresHistory(cfg: Config, c: Core, d: Core, u: nat, l: Leases)
    requires u < |cfg.uplinks| && c.health == d.health && c.own == d.own
    ensures var c', d' := ReconcileOne(cfg, c, u, l), ReconcileOne(cfg, d, u, l);
            c'.health == d'.health && c'.own == d'.own
  {
    hide Target4, Own6, LeaseHealth4, LeaseHealth6, TraceForced, Trace6;
  }

  /** A pass looks at no history. */
  lemma {:induction false} PassIgnoresHistory(cfg: Config, c: Core, d: Core, files: Snapshot, i: nat)
    requires i <= |cfg.uplinks| && c.health == d.health && c.own == d.own
    ensures var c', d' := Reconcile.ReconcileAll(cfg, c, files, i), Reconcile.ReconcileAll(cfg, d, files, i);
            c'.health == d'.health && c'.own == d'.own
  {
    hide ReconcileOne;
    if i > 0 {
      PassIgnoresHistory(cfg, c, d, files, i - 1);
      OneIgnoresHistory(cfg, Reconcile.ReconcileAll(cfg, c, files, i - 1), Reconcile.ReconcileAll(cfg, d, files, i - 1), i - 1,
                        Read(files, NameOf(cfg, i - 1)));
    }
  }

  /** Whatever the daemon went through, a successful reload leaves it as a fresh start of the new configuration would. */
  lemma ReloadIsRestart(d: DaemonState, cfg: Config, files: Snapshot, conf: Confs, signals: seq<(string, RadvdAction)>)
    ensures var r, s := DoReload(d, Some(cfg), files), Start(cfg, conf, signals, files);
            && r.cfg == s.cfg && r.core.health == s.core.health && r.core.own == s.core.own
            && r.primary4 == s.primary4 && r.primary6 == s.primary6
            && r.lastProbe == s.lastProbe
  {
    hide Reconcile.ReconcileAll, PrimaryIpv4, PrimaryIpv6, SetupFwd, NothingOwned;
    PassIgnoresHistory(cfg, Setup(cfg, d.core.trace), Setup(cfg, []), files, |cfg.uplinks|);
  }

  /** So do the kernels agree, over the same foreign contents. */
  lemma ReloadSameKernel(d: DaemonState, cfg: Config, files: Snapshot, conf: Confs, signals: seq<(string, RadvdAction)>,
                         k: Tables, l: Tables, base: Tables)
    requires Agrees(k, cfg, DoReload(d, Some(cfg), files).core.own, base)
    requires Agrees(l, cfg, Start(cfg, conf, signals, files).core.own, base)
    ensures k == l
  {
    hide Agrees, DoReload, Start;
    ReloadIsRestart(d, cfg, files, conf, signals);
    AgreementIsExact(k, l, cfg, Start(cfg, conf, signals, files).core.own, base);
  }

  // ---------------------------------------------------------------- the macvlan rules of one uplink, names colliding or not

  /** Kernel rules, `macvlan_fwd` and `macvlan_prohibit`. */
  datatype Mvs = Mvs(rules: Rules, fwd: map<string, Option<Prefix>>, prohibit: set<string>)

  /** The four loops over networks: setup, narrowing to a delegation, dropping prohibit rules, teardown. */
  datatype Loop = SetUp | Narrow(pd: Prefix) | Permit | TakeDown

  function FwdPrio(cfg: Config, u: nat, n: nat): int { Ipv6FwdToUplink(cfg, u, n) }

  function RejectPrio(cfg: Config, u: nat, n: nat): int { Ipv6RejectWrongPdSrc(cfg, u, n) }

  function NarrowFwd(cfg: Config, u: nat, s: Mvs, n: nat, p: Option<Prefix>): Mvs
    requires n < |cfg.networks|
  {
    var mv, prio := Mv(cfg, u, n), FwdPrio(cfg, u, n);
    if GetOr(s.fwd, mv, None) != p then
      s.(rules := AddRule(DelRule(s.rules, prio), prio, FwdRule(mv, UplinkTable(cfg, u), p)), fwd := s.fwd[mv := p])
    else s
  }

  function AddProhibit(cfg: Config, u: nat, s: Mvs, n: nat): Mvs
    requires n < |cfg.networks|
  {
    var mv := Mv(cfg, u, n);
    if cfg.rejectWrongPdSrc && mv !in s.prohibit then
      s.(rules := AddRule(s.rules, RejectPrio(cfg, u, n), ProhibitRule(mv)), prohibit := s.prohibit + {mv})
    else s
  }

  function DropFwd(cfg: Config, u: nat, s: Mvs, n: nat): Mvs
    requires n < |cfg.networks|
  {
    var mv := Mv(cfg, u, n);
    if mv in s.fwd then s.(rules := DelRule(s.rules, FwdPrio(cfg, u, n)), fwd := s.fwd - {mv}) else s
  }

  function DropProhibit(cfg: Config, u: nat, s: Mvs, n: nat): Mvs
    requires n < |cfg.networks|
  {
    var mv := Mv(cfg, u, n);
    if mv in s.prohibit then s.(rules := DelRule(s.rules, RejectPrio(cfg, u, n)), prohibit := s.prohibit - {mv}) else s
  }

  /** The body of a loop for network `n`. */
  function Body(cfg: Config, u: nat, s: Mvs, loop: Loop, n: nat): Mvs
    requires n < |cfg.networks|
  {
    match loop
    case SetUp =>
      var mv := Mv(cfg, u, n);
      s.(rules := AddRule(s.rules, FwdPrio(cfg, u, n), FwdRule(mv, UplinkTable(cfg, u), None)), fwd := s.fwd[mv := None])
    case Narrow(pd) => AddProhibit(cfg, u, NarrowFwd(cfg, u, s, n, if cfg.rejectWrongPdSrc then Some(pd) else None), n)
    case Permit => DropProhibit(cfg, u, s, n)
    case TakeDown => DropProhibit(cfg, u, DropFwd(cfg, u, s, n), n)
  }

  function Looped(cfg: Config, u: nat, s: Mvs, loop: Loop, n: nat): Mvs
    requires n <= |cfg.networks|
  {
    if n == 0 then s else Body(cfg, u, Looped(cfg, u, s, loop, n - 1), loop, n - 1)
  }

  /** What reconcile passes do to the macvlan rules: a delegation was read (Some) or not. */
  function Passes(cfg: Config, u: nat, s: Mvs, pds: seq<Option<Prefix>>): Mvs {
    if pds == [] then s
    else
      var before, pd := Passes(cfg, u, s, pds[..|pds| - 1]), pds[|pds| - 1];
      Looped(cfg, u, before, if pd.Some? then Narrow(pd.value) else Permit, |cfg.networks|)
  }

  /** Setup, any passes, teardown. */
  function Lifetime(cfg: Config, u: nat, rs: Rules, pds: seq<Option<Prefix>>): Mvs {
    var N := |cfg.networks|;
    Looped(cfg, u, Passes(cfg, u, Looped(cfg, u, Mvs(rs, map[], {}), SetUp, N), pds), TakeDown, N)
  }

  // ---------------------------------------------------------------- shape of the kernel throughout

  /** No earlier network has the name of network `k`. */
  predicate First(cfg: Config, u: nat, k: int) {
    0 <= k < |cfg.networks| && Mv(cfg, u, k) !in MvSet(cfg, u, k)
  }

  predicate Foreign(cfg: Config, u: nat, p: int) {
    forall k :: 0 <= k < |cfg.networks| ==> p != FwdPrio(cfg, u, k) && p != RejectPrio(cfg, u, k)
  }

  ghost predicate NoneOfOurs(cfg: Config, u: nat, rs: Rules) {
    Normal(rs) && forall k :: 0 <= k < |cfg.networks| ==> At(rs, FwdPrio(cfg, u, k)) == [] && At(rs, RejectPrio(cfg, u, k)) == []
  }

  /** An accept rule where `in'` says so, a prohibit rule at the first network of each recorded name, the rest as in `rs`. */
  ghost predicate Shape(cfg: Config, u: nat, rs: Rules, now: Rules, prohibit: set<string>, in': int -> bool) {
    && Normal(now)
    && (forall k :: 0 <= k < |cfg.networks| ==> |At(now, FwdPrio(cfg, u, k))| == if in'(k) then 1 else 0)
    && (forall k :: 0 <= k < |cfg.networks| ==>
          |At(now, RejectPrio(cfg, u, k))| == if First(cfg, u, k) && Mv(cfg, u, k) in prohibit then 1 else 0)
    && (forall p :: Foreign(cfg, u, p) ==> At(now, p) == At(rs, p))
  }

  /** `now'` is `now` with `count` rules at priority `p`. */
  ghost predicate Changed1(now: Rules, now': Rules, p: int, count: nat) {
    Normal(now') && |At(now', p)| == count && forall q :: q != p ==> At(now', q) == At(now, q)
  }

  lemma PriosDiffer(cfg: Config, u: nat)
    requires u < |cfg.uplinks|
    ensures forall k, n :: 0 <= k < |cfg.networks| && 0 <= n < |cfg.networks| ==>
              && (FwdPrio(cfg, u, k) == FwdPrio(cfg, u, n) ==> k == n)
              && (RejectPrio(cfg, u, k) == RejectPrio(cfg, u, n) ==> k == n)
              && FwdPrio(cfg, u, k) != RejectPrio(cfg, u, n)
  {
    forall k, n | 0 <= k < |cfg.networks| && 0 <= n < |cfg.networks| ensures FwdPrio(cfg, u, k) != RejectPrio(cfg, u, n) {
      PrioIsPlace(cfg, Fwd6(u, k));
      PrioIsPlace(cfg, Reject6(u, n));
    }
  }

  lemma FwdChanged(cfg: Config, u: nat, rs: Rules, now: Rules, now': Rules, prohibit: set<string>,
                   in': int -> bool, in'': int -> bool, n: nat)
    requires u < |cfg.uplinks| && n < |cfg.networks| && Shape(cfg, u, rs, now, prohibit, in')
    requires Changed1(now, now', FwdPrio(cfg, u, n), if in''(n) then 1 else 0)
    requires forall k :: 0 <= k < |cfg.networks| && k != n ==> in''(k) == in'(k)
    ensures Shape(cfg, u, rs, now', prohibit, in'')
  {
    hide FwdPrio, RejectPrio, Normal, At, First, Mv;
    PriosDiffer(cfg, u);
  }

  lemma RejectChanged(cfg: Config, u: nat, rs: Rules, now: Rules, now': Rules, prohibit: set<string>, prohibit': set<string>,
                      in': int -> bool, n: nat)
    requires u < |cfg.uplinks| && n < |cfg.networks| && Shape(cfg, u, rs, now, prohibit, in') && First(cfg, u, n)
    requires Changed1(now, now', RejectPrio(cfg, u, n), if Mv(cfg, u, n) in prohibit' then 1 else 0)
    requires forall s :: s != Mv(cfg, u, n) ==> (s in prohibit' <==> s in prohibit)
    ensures Shape(cfg, u, rs, now', prohibit', in')
  {
    hide FwdPrio, RejectPrio, Normal, At, Mv;
    PriosDiffer(cfg, u);
    FirstIsUnique(cfg, u, n);
  }

  lemma FirstIsUnique(cfg: Config, u: nat, n: nat)
    requires First(cfg, u, n)
    ensures forall k :: First(cfg, u, k) && Mv(cfg, u, k) == Mv(cfg, u, n) ==> k == n
  {
    hide Mv;
    assert forall k :: 0 <= k < n ==> Mv(cfg, u, k) in MvSet(cfg, u, n);
    forall k | First(cfg, u, k) && k > n ensures Mv(cfg, u, k) != Mv(cfg, u, n) {
      assert Mv(cfg, u, n) in MvSet(cfg, u, k);
    }
  }

  lemma RuleAdded(now: Rules, p: int, r: Rule)
    requires Normal(now) && At(now, p) == []
    ensures Changed1(now, AddRule(now, p, r), p, 1)
  {
  }

  lemma RuleDeleted(now: Rules, p: int)
    requires Normal(now) && |At(now, p)| == 1
    ensures Changed1(now, DelRule(now, p), p, 0)
  {
  }

  lemma RuleSwapped(now: Rules, p: int, r: Rule)
    requires Normal(now) && |At(now, p)| == 1
    ensures Changed1(now, AddRule(DelRule(now, p), p, r), p, 1)
  {
  }

  // ---------------------------------------------------------------- the loop bodies

  lemma NarrowFwdShape(cfg: Config, u: nat, rs: Rules, s: Mvs, n: nat, p: Option<Prefix>, in': int -> bool)
    requires u < |cfg.uplinks| && n < |cfg.networks| && Shape(cfg, u, rs, s.rules, s.prohibit, in') && in'(n) && Mv(cfg, u, n) in s.fwd
    ensures var t := NarrowFwd(cfg, u, s, n, p);
            Shape(cfg, u, rs, t.rules, t.prohibit, in') && t.fwd.Keys == s.fwd.Keys && t.prohibit == s.prohibit
  {
    hide FwdPrio, RejectPrio, Mv, First, AddRule, DelRule, At, Normal;
    var t, prio := NarrowFwd(cfg, u, s, n, p), FwdPrio(cfg, u, n);
    if t != s {
      RuleSwapped(s.rules, prio, FwdRule(Mv(cfg, u, n), UplinkTable(cfg, u), p));
      FwdChanged(cfg, u, rs, s.rules, t.rules, s.prohibit, in', in', n);
    }
  }

  lemma AddProhibitShape(cfg: Config, u: nat, rs: Rules, s: Mvs, n: nat, in': int -> bool)
    requires u < |cfg.uplinks| && n < |cfg.networks| && Shape(cfg, u, rs, s.rules, s.prohibit, in')
    requires First(cfg, u, n) || !cfg.rejectWrongPdSrc || Mv(cfg, u, n) in s.prohibit
    ensures var t := AddProhibit(cfg, u, s, n);
            && Shape(cfg, u, rs, t.rules, t.prohibit, in') && t.fwd == s.fwd
            && t.prohibit == if cfg.rejectWrongPdSrc then s.prohibit + {Mv(cfg, u, n)} else s.prohibit
  {
    hide FwdPrio, RejectPrio, Mv, First, AddRule, At, Normal;
    var t, prio := AddProhibit(cfg, u, s, n), RejectPrio(cfg, u, n);
    if cfg.rejectWrongPdSrc && Mv(cfg, u, n) !in s.prohibit {
      assert |At(s.rules, prio)| == 0;
      RuleAdded(s.rules, prio, ProhibitRule(Mv(cfg, u, n)));
      RejectChanged(cfg, u, rs, s.rules, t.rules, s.prohibit, t.prohibit, in', n);
    }
  }

  lemma DropProhibitShape(cfg: Config, u: nat, rs: Rules, s: Mvs, n: nat, in': int -> bool)
    requires u < |cfg.uplinks| && n < |cfg.networks| && Shape(cfg, u, rs, s.rules, s.prohibit, in')
    requires First(cfg, u, n) || Mv(cfg, u, n) !in s.prohibit
    ensures var t := DropProhibit(cfg, u, s, n);
            Shape(cfg, u, rs, t.rules, t.prohibit, in') && t.fwd == s.fwd && t.prohibit == s.prohibit - {Mv(cfg, u, n)}
  {
    hide FwdPrio, RejectPrio, Mv, First, DelRule, At, Normal;
    var t, prio := DropProhibit(cfg, u, s, n), RejectPrio(cfg, u, n);
    if Mv(cfg, u, n) in s.prohibit {
      RuleDeleted(s.rules, prio);
      RejectChanged(cfg, u, rs, s.rules, t.rules, s.prohibit, t.prohibit, in', n);
    }
  }

  /** What is left after network `n`: the accept rules of later networks, and of earlier ones that share a name. */
  predicate Survives(cfg: Config, u: nat, k: int, n: nat) { !(k < n && First(cfg, u, k)) }

  lemma DropFwdShape(cfg: Config, u: nat, rs: Rules, s: Mvs, n: nat)
    requires u < |cfg.uplinks| && n < |cfg.networks| && Shape(cfg, u, rs, s.rules, s.prohibit, k => Survives(cfg, u, k, n))
    requires Mv(cfg, u, n) in s.fwd <==> First(cfg, u, n)
    ensures var t := DropFwd(cfg, u, s, n);
            && Shape(cfg, u, rs, t.rules, t.prohibit, k => Survives(cfg, u, k, n + 1))
            && t.fwd == s.fwd - {Mv(cfg, u, n)} && t.prohibit == s.prohibit
  {
    hide FwdPrio, RejectPrio, Mv, First, DelRule, At, Normal;
    var t, prio := DropFwd(cfg, u, s, n), FwdPrio(cfg, u, n);
    if Mv(cfg, u, n) in s.fwd {
      RuleDeleted(s.rules, prio);
      FwdChanged(cfg, u, rs, s.rules, t.rules, s.prohibit, k => Survives(cfg, u, k, n), k => Survives(cfg, u, k, n + 1), n);
    } else {
      SameShape(cfg, u, rs, s, k => Survives(cfg, u, k, n), k => Survives(cfg, u, k, n + 1));
      assert s.fwd - {Mv(cfg, u, n)} == s.fwd;
    }
  }

  lemma SameShape(cfg: Config, u: nat, rs: Rules, s: Mvs, in': int -> bool, in'': int -> bool)
    requires Shape(cfg, u, rs, s.rules, s.prohibit, in') && forall k :: 0 <= k < |cfg.networks| ==> in''(k) == in'(k)
    ensures Shape(cfg, u, rs, s.rules, s.prohibit, in'')
  {
  }

  // ---------------------------------------------------------------- the loops

  lemma NextName(cfg: Config, u: nat, n: nat)
    requires n < |cfg.networks|
    ensures MvSet(cfg, u, n + 1) == MvSet(cfg, u, n) + {Mv(cfg, u, n)}
    ensures Mv(cfg, u, n) in MvSet(cfg, u, |cfg.networks|)
    ensures First(cfg, u, n) <==> Mv(cfg, u, n) !in MvSet(cfg, u, n)
  {
    NarrowStep(cfg, u, n, map[], None);
  }

  lemma {:induction false} SetUpShape(cfg: Config, u: nat, rs: Rules, n: nat)
    requires u < |cfg.uplinks| && n <= |cfg.networks| && NoneOfOurs(cfg, u, rs)
    ensures var s := Looped(cfg, u, Mvs(rs, map[], {}), SetUp, n);
            Shape(cfg, u, rs, s.rules, {}, k => k < n) && s.fwd.Keys == MvSet(cfg, u, n) && s.prohibit == {}
  {
    hide FwdPrio, RejectPrio, Mv, First, AddRule, Shape, NoneOfOurs;
    if n == 0 {
      EmptyShape(cfg, u, rs);
    } else {
      SetUpShape(cfg, u, rs, n - 1);
      NextName(cfg, u, n - 1);
      var s := Looped(cfg, u, Mvs(rs, map[], {}), SetUp, n - 1);
      var prio, r := FwdPrio(cfg, u, n - 1), FwdRule(Mv(cfg, u, n - 1), UplinkTable(cfg, u), None);
      AcceptCount(cfg, u, rs, s.rules, {}, k => k < n - 1, n - 1);
      RuleAdded(s.rules, prio, r);
      FwdChanged(cfg, u, rs, s.rules, AddRule(s.rules, prio, r), {}, k => k < n - 1, k => k < n, n - 1);
    }
  }

  lemma EmptyShape(cfg: Config, u: nat, rs: Rules)
    requires NoneOfOurs(cfg, u, rs)
    ensures Shape(cfg, u, rs, rs, {}, k => k < 0)
  {
  }

  lemma AcceptCount(cfg: Config, u: nat, rs: Rules, now: Rules, prohibit: set<string>, in': int -> bool, n: nat)
    requires n < |cfg.networks| && Shape(cfg, u, rs, now, prohibit, in')
    ensures Normal(now) && |At(now, FwdPrio(cfg, u, n))| == if in'(n) then 1 else 0
  {
  }

  /** Between setup and teardown. */
  ghost predicate Serving(cfg: Config, u: nat, rs: Rules, s: Mvs) {
    Shape(cfg, u, rs, s.rules, s.prohibit, k => true) && s.fwd.Keys == MvSet(cfg, u, |cfg.networks|)
  }

  lemma {:induction false} NarrowServes(cfg: Config, u: nat, rs: Rules, s: Mvs, pd: Prefix, n: nat)
    requires u < |cfg.uplinks| && n <= |cfg.networks| && Serving(cfg, u, rs, s)
    ensures var t := Looped(cfg, u, s, Narrow(pd), n);
            Serving(cfg, u, rs, t) && (cfg.rejectWrongPdSrc ==> MvSet(cfg, u, n) <= t.prohibit)
  {
    hide Mv, First, Shape, NarrowFwd, AddProhibit;
    if n > 0 {
      NarrowServes(cfg, u, rs, s, pd, n - 1);
      NextName(cfg, u, n - 1);
      var t, p := Looped(cfg, u, s, Narrow(pd), n - 1), if cfg.rejectWrongPdSrc then Some(pd) else None;
      NarrowFwdShape(cfg, u, rs, t, n - 1, p, k => true);
      AddProhibitShape(cfg, u, rs, NarrowFwd(cfg, u, t, n - 1, p), n - 1, k => true);
    }
  }

  lemma {:induction false} PermitServes(cfg: Config, u: nat, rs: Rules, s: Mvs, n: nat)
    requires u < |cfg.uplinks| && n <= |cfg.networks| && Serving(cfg, u, rs, s)
    ensures var t := Looped(cfg, u, s, Permit, n);
            Serving(cfg, u, rs, t) && t.prohibit !! MvSet(cfg, u, n)
  {
    hide Mv, First, Shape, DropProhibit;
    if n > 0 {
      PermitServes(cfg, u, rs, s, n - 1);
      NextName(cfg, u, n - 1);
      DropProhibitShape(cfg, u, rs, Looped(cfg, u, s, Permit, n - 1), n - 1, k => true);
    }
  }

  lemma {:induction false} PassesServe(cfg: Config, u: nat, rs: Rules, s: Mvs, pds: seq<Option<Prefix>>)
    requires u < |cfg.uplinks| && Serving(cfg, u, rs, s)
    ensures Serving(cfg, u, rs, Passes(cfg, u, s, pds))
  {
    hide Serving, Looped;
    if pds != [] {
      PassesServe(cfg, u, rs, s, pds[..|pds| - 1]);
      var before, pd := Passes(cfg, u, s, pds[..|pds| - 1]), pds[|pds| - 1];
      if pd.Some? {
        NarrowServes(cfg, u, rs, before, pd.value, |cfg.networks|);
      } else {
        PermitServes(cfg, u, rs, before, |cfg.networks|);
      }
    }
  }

  lemma {:induction false} TakeDownShape(cfg: Config, u: nat, rs: Rules, s: Mvs, n: nat)
    requires u < |cfg.uplinks| && n <= |cfg.networks| && Serving(cfg, u, rs, s)
    ensures var t := Looped(cfg, u, s, TakeDown, n);
            && Shape(cfg, u, rs, t.rules, t.prohibit, k => Survives(cfg, u, k, n))
            && t.fwd.Keys == MvSet(cfg, u, |cfg.networks|) - MvSet(cfg, u, n) && t.prohibit !! MvSet(cfg, u, n)
  {
    hide Mv, First, Shape, DropFwd, DropProhibit;
    if n == 0 {
      SameShape(cfg, u, rs, s, k => true, k => Survives(cfg, u, k, 0));
    } else {
      TakeDownShape(cfg, u, rs, s, n - 1);
      NextName(cfg, u, n - 1);
      var t := Looped(cfg, u, s, TakeDown, n - 1);
      DropFwdShape(cfg, u, rs, t, n - 1);
      DropProhibitShape(cfg, u, rs, DropFwd(cfg, u, t, n - 1), n - 1, k => Survives(cfg, u, k, n));
    }
  }

  // ---------------------------------------------------------------- teardown is exact iff names are distinct

  /**
   * For a PD uplink whose macvlan names can all be made, after setup and any reconcile passes: teardown gives the kernel
   * back exactly as it was iff the names differ; otherwise an accept rule stays behind.
   */
  lemma TeardownExactIffDistinct(cfg: Config, u: nat, rs: Rules, pds: seq<Option<Prefix>>)
    requires u < |cfg.uplinks| && cfg.uplinks[u].ipv6Pd && NamesExist(cfg, u) && NoneOfOurs(cfg, u, rs)
    ensures Lifetime(cfg, u, rs, pds).rules == rs <==> NamesDistinct(cfg, u)
  {
    hide Mv, Looped, Passes, FwdPrio, RejectPrio, NamesExist, Shape, NamesDistinct, Survives, NoneOfOurs;
    var N := |cfg.networks|;
    var up := Looped(cfg, u, Mvs(rs, map[], {}), SetUp, N);
    var s := Passes(cfg, u, up, pds);
    var end := Lifetime(cfg, u, rs, pds);
    SetUpShape(cfg, u, rs, N);
    SameShape(cfg, u, rs, up, k => k < N, k => true);
    PassesServe(cfg, u, rs, up, pds);
    TakeDownShape(cfg, u, rs, s, N);
    if NamesDistinct(cfg, u) {
      NothingSurvives(cfg, u, rs, end);
    } else {
      RuleSurvives(cfg, u, rs, end);
    }
  }

  lemma NothingSurvives(cfg: Config, u: nat, rs: Rules, end: Mvs)
    requires NoneOfOurs(cfg, u, rs) && NamesDistinct(cfg, u)
    requires Shape(cfg, u, rs, end.rules, end.prohibit, k => Survives(cfg, u, k, |cfg.networks|))
    requires end.prohibit !! MvSet(cfg, u, |cfg.networks|)
    ensures end.rules == rs
  {
    hide Mv, FwdPrio, RejectPrio, At;
    var N := |cfg.networks|;
    assert forall k :: 0 <= k < N ==> First(cfg, u, k);
    assert forall k :: 0 <= k < N ==> Mv(cfg, u, k) in MvSet(cfg, u, N);
    forall p ensures At(end.rules, p) == At(rs, p) {
      assert Foreign(cfg, u, p) || exists k :: 0 <= k < N && (p == FwdPrio(cfg, u, k) || p == RejectPrio(cfg, u, k));
    }
    SameRules(end.rules, rs);
  }

  lemma RuleSurvives(cfg: Config, u: nat, rs: Rules, end: Mvs)
    requires NoneOfOurs(cfg, u, rs) && !NamesDistinct(cfg, u)
    requires Shape(cfg, u, rs, end.rules, end.prohibit, k => Survives(cfg, u, k, |cfg.networks|))
    ensures end.rules != rs
  {
    hide Mv, RejectPrio, At;
    var N := |cfg.networks|;
    var j, k :| 0 <= j < k < N && Mv(cfg, u, j) == Mv(cfg, u, k);
    assert Mv(cfg, u, j) in MvSet(cfg, u, k);
    assert Survives(cfg, u, k, N);
    assert |At(end.rules, FwdPrio(cfg, u, k))| == 1 && At(rs, FwdPrio(cfg, u, k)) == [];
  }

  lemma SameInterface(cfg: Config, j: nat, k: nat)
    requires j < k < |cfg.networks| && cfg.networks[j].iface == cfg.networks[k].iface
    ensures forall u: nat :: !NamesDistinct(cfg, u)
  {
    forall u: nat ensures !NamesDistinct(cfg, u) {
      assert Mv(cfg, u, j) == Mv(cfg, u, k);
    }
  }

  /** The failing input is one that is accepted: whatever loads still loads with two networks on one interface, and then
      the names of every uplink collide. */
  lemma CollidingNames(raw: RawConfig, j: nat, k: nat, u: nat)
    requires Loads(raw) && j < k < |raw.networks|
    ensures var same := raw.(networks := raw.networks[k := raw.networks[k].(iface := raw.networks[j].iface)]);
            Loads(same) && Accepted(Loaded(same)) && !NamesDistinct(Loaded(same), u)
  {
    hide UplinkFault, UplinksDistinct;
    var same := raw.(networks := raw.networks[k := raw.networks[k].(iface := raw.networks[j].iface)]);
    forall i: nat | i < |same.networks| ensures NetworkFault(same.networks, i).None? {
      assert NetworkFault(raw.networks, i).None? && NetworkFault(raw.networks, j).None?;
    }
    LoadedIsAccepted(same);
    SameInterface(Loaded(same), j, k);
  }

  /** For any valid interface and any two positions there is such a configuration, with a PD uplink. */
  lemma CollisionLoads(iface: string, j: nat, k: nat) returns (raw: RawConfig)
    requires iface != "" && IfaceOk(iface) && j < k
    ensures Loads(raw) && k < |raw.networks| && raw.networks[j].iface == raw.networks[k].iface == iface
    ensures Loaded(raw).uplinks[0].ipv6Pd && forall u: nat :: !NamesDistinct(Loaded(raw), u)
  {
    var network := RawNetwork("n", iface);
    raw := RawConfig(Config(100, 29000, true, false, 60, 30, 10, 3, 3, [], []), seq(k + 1, i => network),
                     [RawUplink("a", "b", true, 56, false, None)]);
    assert UplinkFault(raw.uplinks, 0).None?;
    SameInterface(Loaded(raw), j, k);
  }
}
