/**
 * What a reconcile pass and a probe cycle achieve (daemon.py), stated without the commands they issue: the health,
 * the record of what is installed, and the history afterwards, as functions of what was read.
 */
module Reconcile {
  import opened Wrappers
  import opened Configuration
  import opened Naming
  import opened StateMachine
  import opened State
  import opened Routing
  import opened Shadow
  import opened Trace
  import opened Radvd

  datatype Core = Core(health: Healths, own: Owned, trace: History)

  function Push(c: Core, e: Entry): Core { c.(trace := c.trace + [e]) }

  function LinkOf(h: Health, f: Family): Link { if f.V4? then h.v4 else h.v6 }

  function NameOf(cfg: Config, u: nat): string
    requires u < |cfg.uplinks|
  {
    cfg.uplinks[u].name
  }

  function HealthAt(cfg: Config, c: Core, u: nat): Health
    requires u < |cfg.uplinks|
  {
    HealthOf(c.health, NameOf(cfg, u))
  }

  function Route6At(cfg: Config, o: Owned, u: nat): Option<Route>
    requires u < |cfg.uplinks|
  {
    GetOr(o.r6, NameOf(cfg, u), None)
  }

  // ---------------------------------------------------------------- IPv4

  function LeaseHealth4(h: Health, l: Leases): Health {
    if l.v4.None? && h.v4.state.Up? then h.(v4 := FORCED) else h
  }

  /** Routes and rule are present iff the lease is known and the link is UP; the rule also needs an address. */
  function Target4(h: Health, i: Installed, l: Leases): Installed {
    var on := l.v4.Some? && h.v4.state.Up?;
    i.(gw4 := if on then Some(l.v4.value.gateway) else None,
       lo4 := if on && l.v4.value.address != "" then Some(l.v4.value.address) else None)
  }

  /** `_force_link_down` reports the link at once. */
  function TraceForced(t: History, name: string, f: Family, forced: bool): History {
    if forced then t + [Fired(Wan(name, f, Down))] else t
  }

  function Reconcile4(cfg: Config, c: Core, u: nat, l: Leases): Core
    requires u < |cfg.uplinks|
  {
    var name, h := NameOf(cfg, u), HealthAt(cfg, c, u);
    var h' := LeaseHealth4(h, l);
    Core(c.health[name := h'],
         With(c.own, name, Target4(h', ShOf(cfg, c.own, u), l)),
         TraceForced(c.trace, name, V4, h' != h))
  }

  // ---------------------------------------------------------------- IPv6

  function LeaseHealth6(h: Health, l: Leases): Health {
    if l.ra.None? && l.pd.None? && l.na.None? && h.v6.state.Up? then h.(v6 := FORCED) else h
  }

  function TargetRoute6(up: Uplink, l: Leases): Option<Route> {
    match l.ra
    case Some(ra) => Some(Route(ra.gateway, up.iface, if ra.lifetime != 0 then Some(ra.Remaining(l.now)) else None))
    case None => None
  }

  /** The source prefix for the router's own packets: the managed address, else the advertised prefix, else an address. */
  function LoSource6(l: Leases): Option<Prefix> {
    if l.na.Some? then Some(Prefix(l.na.value.address, 128))
    else if l.ra.Some? && l.ra.value.prefix != "" then Some(Prefix(l.ra.value.prefix, l.ra.value.plen))
    else if l.ra.Some? && l.ra.value.address != "" then Some(Prefix(l.ra.value.address, 128))
    else None
  }

  function Delegation(l: Leases): Option<Prefix> {
    match l.pd
    case Some(pd) => Some(Prefix(pd.prefix, pd.length))
    case None => None
  }

  function MvSet(cfg: Config, u: nat, n: nat): set<string>
    requires n <= |cfg.networks|
  {
    set k | 0 <= k < n :: Mv(cfg, u, k)
  }

  function AllTo(mvs: set<string>, p: Option<Prefix>): map<string, Option<Prefix>> { map s | s in mvs :: p }

  /** The accept rules of `mvs` get constraint `p`; one that is not installed is only added to carry a prefix. */
  function Narrow(fwd: map<string, Option<Prefix>>, mvs: set<string>, p: Option<Prefix>): map<string, Option<Prefix>> {
    map s | s in fwd.Keys + (if p.Some? then mvs else {}) :: if s in mvs then p else fwd[s]
  }

  /** The accept rules are narrowed to the newest delegation and left alone without one; the prohibit rules come and go with it. */
  function MacvlanTarget(cfg: Config, u: nat, i: Installed, l: Leases): Installed {
    var mvs := MvSet(cfg, u, |cfg.networks|);
    i.(fwd := if l.pd.Some? then Narrow(i.fwd, mvs, if cfg.rejectWrongPdSrc then Delegation(l) else None) else i.fwd,
       prohibit := if l.pd.None? then i.prohibit - mvs
                   else if cfg.rejectWrongPdSrc then i.prohibit + mvs else i.prohibit)
  }

  function Target6(cfg: Config, u: nat, h: Health, i: Installed, l: Leases): Installed
    requires u < |cfg.uplinks|
  {
    var up6 := h.v6.state.Up?;
    MacvlanTarget(cfg, u,
                  i.(route6 := l.ra.Some?,
                     lo6 := if up6 then LoSource6(l) else None,
                     pdLo6 := if up6 then Delegation(l) else None),
                  l)
  }

  function Reconcile6(cfg: Config, c: Core, u: nat, l: Leases): Core
    requires u < |cfg.uplinks|
  {
    if !Ipv6Uplink(cfg.uplinks[u]) then c else
    var name, h := NameOf(cfg, u), HealthAt(cfg, c, u);
    var h' := LeaseHealth6(h, l);
    Core(c.health[name := h'], Own6(cfg, c.own, u, h', l), Trace6(c.trace, name, h' != h, l))
  }

  function Own6(cfg: Config, o: Owned, u: nat, h: Health, l: Leases): Owned
    requires u < |cfg.uplinks|
  {
    With(o, NameOf(cfg, u), Target6(cfg, u, h, ShOf(cfg, o, u), l))
      .(r6 := o.r6[NameOf(cfg, u) := TargetRoute6(cfg.uplinks[u], l)])
  }

  function Trace6(t: History, name: string, forced: bool, l: Leases): History {
    var t1 := TraceForced(t, name, V6, forced);
    match Delegation(l)
    case Some(p) => t1 + [PdSeen(name, p)]
    case None => t1
  }

  function ReconcileOne(cfg: Config, c: Core, u: nat, l: Leases): Core
    requires u < |cfg.uplinks|
  {
    Reconcile6(cfg, Reconcile4(cfg, c, u, l), u, l)
  }

  /** After the first `i` uplinks of `_reconcile_all`. */
  function ReconcileAll(cfg: Config, c: Core, files: Snapshot, i: nat): Core
    requires i <= |cfg.uplinks|
  {
    if i == 0 then c
    else ReconcileOne(cfg, ReconcileAll(cfg, c, files, i - 1), i - 1, Read(files, NameOf(cfg, i - 1)))
  }

  // ---------------------------------------------------------------- start

  /** `_init_states` and the two global rules. */
  function Blank(cfg: Config, t: History): Core {
    Core(map s | s in Names(cfg) :: Health(FRESH, FRESH),
         NothingOwned(cfg).(on4 := true, on6 := true),
         t + [Init(cfg.recoveryThreshold)])
  }

  /** After the accept rules of the first `i` uplinks were installed, unconstrained. */
  function SetupFwd(cfg: Config, o: Owned, i: nat): Owned
    requires i <= |cfg.uplinks|
  {
    if i == 0 then o
    else
      var before := SetupFwd(cfg, o, i - 1);
      if cfg.uplinks[i - 1].ipv6Pd then
        With(before, NameOf(cfg, i - 1), ShOf(cfg, before, i - 1).(fwd := AllTo(MvSet(cfg, i - 1, |cfg.networks|), None)))
      else before
  }

  function Setup(cfg: Config, t: History): Core {
    var c := Blank(cfg, t);
    c.(own := SetupFwd(cfg, c.own, |cfg.uplinks|))
  }

  // ---------------------------------------------------------------- probe cycle

  datatype Pings = Pings(v4: bool, v6: bool)

  type Probing = map<string, Pings>

  function PingsOf(probes: Probing, name: string): Pings { GetOr(probes, name, Pings(false, false)) }

  function StepHealth(cfg: Config, u: nat, h: Health, p: Pings): Health
    requires u < |cfg.uplinks|
  {
    Health(Step(h.v4, p.v4, cfg.failureThreshold, cfg.recoveryThreshold),
           if Ipv6Uplink(cfg.uplinks[u]) then Step(h.v6, p.v6, cfg.failureThreshold, cfg.recoveryThreshold) else h.v6)
  }

  /** The state machine takes the probe results of one uplink. */
  function Observe(cfg: Config, c: Core, u: nat, p: Pings): Core
    requires u < |cfg.uplinks|
  {
    var name := NameOf(cfg, u);
    var c1 := Push(c, Probed(name, V4, p.v4));
    var c2 := if Ipv6Uplink(cfg.uplinks[u]) then Push(c1, Probed(name, V6, p.v6)) else c1;
    c2.(health := c.health[name := StepHealth(cfg, u, HealthAt(cfg, c, u), p)])
  }

  /** `_fire_wan_event` with the state the link has by then. */
  function Report(cfg: Config, c: Core, u: nat, f: Family): Core
    requires u < |cfg.uplinks|
  {
    Push(c, Fired(Wan(NameOf(cfg, u), f, LinkOf(HealthAt(cfg, c, u), f).state)))
  }

  predicate Changed(cfg: Config, c: Core, u: nat, p: Pings, f: Family)
    requires u < |cfg.uplinks|
  {
    var h := HealthAt(cfg, c, u);
    LinkOf(StepHealth(cfg, u, h, p), f).state != LinkOf(h, f).state
  }

  function CycleOne(cfg: Config, c: Core, u: nat, p: Pings, l: Leases): Core
    requires u < |cfg.uplinks|
  {
    var c1 := Observe(cfg, c, u, p);
    var c2 := if Changed(cfg, c, u, p, V4) then Report(cfg, Reconcile4(cfg, c1, u, l), u, V4) else c1;
    if Changed(cfg, c, u, p, V6) then Report(cfg, Reconcile6(cfg, c2, u, l), u, V6) else c2
  }

  function Cycle(cfg: Config, c: Core, probes: Probing, files: Snapshot, i: nat): Core
    requires i <= |cfg.uplinks|
  {
    if i == 0 then c
    else
      var name := NameOf(cfg, i - 1);
      CycleOne(cfg, Cycle(cfg, c, probes, files, i - 1), i - 1, PingsOf(probes, name), Read(files, name))
  }

  /** Some IPv6 link among the first `i` uplinks changed state by probing. */
  predicate AnyIpv6Change(cfg: Config, c: Core, probes: Probing, files: Snapshot, i: nat)
    requires i <= |cfg.uplinks|
  {
    i > 0 && (AnyIpv6Change(cfg, c, probes, files, i - 1)
              || Changed(cfg, Cycle(cfg, c, probes, files, i - 1), i - 1, PingsOf(probes, NameOf(cfg, i - 1)), V6))
  }

  /** A record that is already as wanted for more names was as wanted for fewer. */
  lemma NarrowPrefix(fwd: map<string, Option<Prefix>>, some: set<string>, all: set<string>, p: Option<Prefix>)
    requires some <= all && Narrow(fwd, all, p) == fwd
    ensures Narrow(fwd, some, p) == fwd
  {
    forall s | s in all && (p.Some? || s in fwd) ensures s in fwd && fwd[s] == p {
      assert s in Narrow(fwd, all, p) && Narrow(fwd, all, p)[s] == p;
    }
  }

  /** One more name: what the loop over networks does to the record. */
  lemma NarrowStep(cfg: Config, u: nat, n: nat, fwd: map<string, Option<Prefix>>, p: Option<Prefix>)
    requires n < |cfg.networks|
    ensures var before, mv := Narrow(fwd, MvSet(cfg, u, n), p), Mv(cfg, u, n);
            Narrow(fwd, MvSet(cfg, u, n + 1), p) == if GetOr(before, mv, None) != p then before[mv := p] else before
    ensures MvSet(cfg, u, n + 1) == MvSet(cfg, u, n) + {Mv(cfg, u, n)}
  {
    hide Mv;
    assert MvSet(cfg, u, n + 1) == MvSet(cfg, u, n) + {Mv(cfg, u, n)};
  }

  /** The record after the first `n` networks of `_reconcile_macvlan_rules`. */
  function MvTarget(cfg: Config, u: nat, i: Installed, n: nat, p: Option<Prefix>): Installed
    requires n <= |cfg.networks|
  {
    i.(fwd := Narrow(i.fwd, MvSet(cfg, u, n), p),
       prohibit := if cfg.rejectWrongPdSrc then i.prohibit + MvSet(cfg, u, n) else i.prohibit)
  }

  lemma MvTargetStep(cfg: Config, u: nat, i: Installed, n: nat, p: Option<Prefix>)
    requires n < |cfg.networks|
    ensures var j, mv := MvTarget(cfg, u, i, n, p), Mv(cfg, u, n);
            MvTarget(cfg, u, i, n + 1, p) == j.(fwd := if GetOr(j.fwd, mv, None) != p then j.fwd[mv := p] else j.fwd,
                                                prohibit := if cfg.rejectWrongPdSrc then j.prohibit + {mv} else j.prohibit)
    ensures MvTarget(cfg, u, i, n + 1, p) == i ==> MvTarget(cfg, u, i, n, p) == i
  {
    hide Mv, Narrow, MvSet;
    NarrowStep(cfg, u, n, i.fwd, p);
    var some, all := MvSet(cfg, u, n), MvSet(cfg, u, n + 1);
    assert i.prohibit + all == i.prohibit + some + {Mv(cfg, u, n)};
    if MvTarget(cfg, u, i, n + 1, p) == i {
      NarrowPrefix(i.fwd, some, all, p);
      assert cfg.rejectWrongPdSrc ==> all <= i.prohibit;
    }
  }

  lemma MvTargetEnds(cfg: Config, u: nat, i: Installed, p: Option<Prefix>)
    ensures MvTarget(cfg, u, i, 0, p) == i
    ensures var mvs := MvSet(cfg, u, |cfg.networks|);
            MvTarget(cfg, u, i, |cfg.networks|, p) ==
            i.(fwd := Narrow(i.fwd, mvs, p), prohibit := if cfg.rejectWrongPdSrc then i.prohibit + mvs else i.prohibit)
  {
  }

  /** The record after the prohibit rules of the first `n` networks were removed. */
  function Permitted(cfg: Config, u: nat, i: Installed, n: nat): Installed
    requires n <= |cfg.networks|
  {
    i.(prohibit := i.prohibit - MvSet(cfg, u, n))
  }

  lemma PermittedStep(cfg: Config, u: nat, i: Installed, n: nat)
    requires n < |cfg.networks|
    ensures var j := Permitted(cfg, u, i, n); Permitted(cfg, u, i, n + 1) == j.(prohibit := j.prohibit - {Mv(cfg, u, n)})
    ensures Permitted(cfg, u, i, n + 1) == i ==> Permitted(cfg, u, i, n) == i
  {
    hide Mv, MvSet;
    NarrowStep(cfg, u, n, i.fwd, None);
    var some := MvSet(cfg, u, n);
    assert i.prohibit - (some + {Mv(cfg, u, n)}) == i.prohibit - some - {Mv(cfg, u, n)};
    if i.prohibit - (some + {Mv(cfg, u, n)}) == i.prohibit {
      assert i.prohibit - some == i.prohibit;
    }
  }

  lemma PermittedEnds(cfg: Config, u: nat, i: Installed)
    ensures Permitted(cfg, u, i, 0) == i
  {
    assert i.prohibit - MvSet(cfg, u, 0) == i.prohibit;
  }

  /** The records of the uplinks from `i` on are as they were. */
  ghost predicate SameFrom(cfg: Config, was: map<string, Installed>, sh: map<string, Installed>, i: nat) {
    && sh.Keys == was.Keys
    && forall j :: i <= j < |cfg.uplinks| && cfg.uplinks[j].name in was ==> sh[cfg.uplinks[j].name] == was[cfg.uplinks[j].name]
  }

  lemma SameFromStart(cfg: Config, sh: map<string, Installed>)
    ensures SameFrom(cfg, sh, sh, 0)
  {
  }

  lemma SameFromStep(cfg: Config, was: map<string, Installed>, sh: map<string, Installed>, i: nat, v: Installed)
    requires i < |cfg.uplinks| && cfg.uplinks[i].name in sh && SameFrom(cfg, was, sh, i)
    requires forall j :: 0 <= j < |cfg.uplinks| && j != i ==> cfg.uplinks[j].name != cfg.uplinks[i].name
    ensures SameFrom(cfg, was, sh[cfg.uplinks[i].name := v], i + 1)
    ensures sh[cfg.uplinks[i].name := v] == was ==> sh == was
  {
    var name := cfg.uplinks[i].name;
    assert sh[name] == was[name];
    if sh[name := v] == was {
      assert v == was[name] == sh[name];
      assert sh == sh[name := v];
    }
  }
}
