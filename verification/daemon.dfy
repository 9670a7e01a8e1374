/**
 * The daemon object (daemon.py). Its methods issue deltas to the kernel from the record alone; each is proved to keep
 * the kernel in exact agreement with the record and to reach the state the specification functions name.
 */
module Daemons {
  import opened Wrappers
  import opened Configuration
  import opened Priority
  import opened Naming
  import opened StateMachine
  import opened State
  import opened Routing
  import opened Shadow
  import opened Trace
  import opened Radvd
  import opened Reconcile
  import opened Invariants
  import opened DaemonSpec
  import opened Runs
  import opened Convergence

  function ForcedDown(h: Health, f: Family): Health {
    match f
    case V4 => h.(v4 := FORCED)
    case V6 => h.(v6 := FORCED)
  }

  class Daemon {
    const kernel: Kernel
    const radvd: RadvdDir
    var cfg: Config
    var states: map<string, UplinkState>
    var installed: map<string, Installed>
    var ipv4RulesInstalled: bool
    var ipv6RuleInstalled: bool
    var reloadRequested: bool
    var reconcileRequested: bool
    var radvdSighupRequested: bool
    var running: bool
    var lastRadvdSighup: real
    var lastProbe: Option<real>
    var primaryIpv4: Option<string>
    var primaryIpv6: Option<string>
    /** What was handed to the hook runner, oldest first. */
    var queue: seq<Event>

    ghost var routes6: map<string, Option<Route>>
    ghost var trace: History
    ghost var beats: seq<Beat>
    ghost var regenerated: bool
    /** The kernel as the daemon found it. */
    ghost const base: Tables

    constructor (kernel: Kernel, radvd: RadvdDir, cfg: Config)
      ensures this.kernel == kernel && this.radvd == radvd && base == kernel.Val()
      ensures states == map[] && installed == map[] && queue == []
      ensures Val() == Unstarted(cfg, radvd.conf, radvd.signals)
    {
      this.kernel, this.radvd, this.cfg, base := kernel, radvd, cfg, kernel.Val();
      states, installed, routes6 := map[], map[], map[];
      ipv4RulesInstalled, ipv6RuleInstalled := false, false;
      reloadRequested, reconcileRequested, radvdSighupRequested, running := false, false, false, true;
      lastRadvdSighup, lastProbe, primaryIpv4, primaryIpv6 := 0.0, None, None, None;
      queue, trace, beats, regenerated := [], [], [], false;
    }

    // -------------------------------------------------------------- abstraction

    ghost function HealthVal(): Healths
      reads `states, states.Values
    {
      map s | s in states :: states[s].Val()
    }

    ghost function OwnVal(): Owned
      reads `installed, `routes6, `ipv4RulesInstalled, `ipv6RuleInstalled
    {
      Owned(installed, routes6, ipv4RulesInstalled, ipv6RuleInstalled)
    }

    ghost function CoreVal(): Core
      reads `states, `installed, `routes6, `ipv4RulesInstalled, `ipv6RuleInstalled, `trace, states.Values
    {
      Core(HealthVal(), OwnVal(), trace)
    }

    ghost function Val(): DaemonState
      reads this, states.Values, radvd
    {
      DaemonState(cfg, CoreVal(), primaryIpv4, primaryIpv6, reloadRequested, reconcileRequested, radvdSighupRequested,
                  running, lastRadvdSighup, lastProbe, radvd.conf, radvd.signals, regenerated, beats)
    }

    /** Every uplink has its own state object. */
    ghost predicate Separate()
      reads `states, `installed, `routes6, `cfg
    {
      && states.Keys == installed.Keys == routes6.Keys == Names(cfg)
      && (forall s :: s in states ==> states[s].name == s)
    }

    /** The refinement: the kernel is what the record stands for, over the kernel as it was found. */
    ghost predicate Valid()
      reads `cfg, `states, `installed, `routes6, `ipv4RulesInstalled, `ipv6RuleInstalled, `queue, `trace, kernel
    {
      && Accepted(cfg) && WellNamed(cfg) && Free(cfg, base)
      && Separate()
      && Agrees(kernel.Val(), cfg, OwnVal(), base)
      && Flagged6(cfg, OwnVal())
      && queue == Events(trace)
    }

    ghost predicate Mine(uplink: Uplink)
      reads `cfg, `states, `installed
    {
      && uplink.index < |cfg.uplinks| && cfg.uplinks[uplink.index] == uplink
      && uplink.name in states && uplink.name in installed
    }

    lemma HealthUpdated(hs: Healths, name: string, h: Health)
      requires name in states && states.Keys == hs.Keys
      requires forall s :: s in states ==> states[s].Val() == if s == name then h else hs[s]
      ensures HealthVal() == hs[name := h]
    {
    }

    // -------------------------------------------------------------- events

    method Fire(e: Event)
      requires queue == Events(trace)
      modifies this`queue, this`trace
      ensures trace == old(trace) + [Fired(e)] && queue == Events(trace)
    {
      Pushed(trace, Fired(e));
      queue := queue + [e];
      trace := trace + [Fired(e)];
    }

    /** An entry of the history that is no event. */
    ghost method Note(e: Entry)
      requires queue == Events(trace) && !e.Fired?
      modifies this`trace
      ensures trace == old(trace) + [e] && queue == Events(trace)
    {
      Pushed(trace, e);
      trace := trace + [e];
    }

    method FireOne(e: Event)
      requires Valid()
      modifies this`queue, this`trace
      ensures Valid() && trace == old(trace) + [Fired(e)]
    {
      hide Accepted, Agrees, WellNamed, Flagged6, Names, Free, Events;
      Fire(e);
    }

    lemma OwnObjects()
      requires Valid()
      ensures forall s :: s in states ==> states[s].name == s
    {
      hide Accepted, Agrees, WellNamed, Flagged6, Events, Free, Names;
    }

    method ForceLinkDown(uplink: Uplink, f: Family)
      requires Valid() && Mine(uplink)
      modifies this`queue, this`trace, states[uplink.name]
      ensures Valid() && OwnVal() == old(OwnVal())
      ensures trace == old(trace) + [Fired(Wan(uplink.name, f, Down))]
      ensures HealthVal() == old(HealthVal())[uplink.name := ForcedDown(HealthOf(old(HealthVal()), uplink.name), f)]
    {
      hide Valid;
      OwnObjects();
      var st := states[uplink.name];
      st.SetLink(f, FORCED);
      HealthUpdated(old(HealthVal()), uplink.name, st.Val());
      FireOne(Wan(uplink.name, f, Down));
    }

    // -------------------------------------------------------------- one element of the record at a time

    method SyncLo6(uplink: Uplink, p: Option<Prefix>)
      requires Valid() && Mine(uplink)
      modifies kernel, this`installed
      ensures Valid() && Mine(uplink)
      ensures OwnVal() == With(old(OwnVal()), uplink.name, old(installed[uplink.name]).(lo6 := p))
      ensures p == old(installed[uplink.name].lo6) ==> kernel.commands == old(kernel.commands)
    {
      hide Accepted, Agrees, WellNamed, Flagged6, Events, Names, Free;
      var inst, prio, tbl := installed[uplink.name], Ipv6LoToUplink(cfg, uplink.index), UplinkTable(cfg, uplink.index);
      ghost var k, o := kernel.Val(), OwnVal();
      if p != inst.lo6 {
        kernel.Swap6(prio, inst.lo6.Some?, LoRuleOf(p, tbl));
        SwapLo6(k, cfg, o, base, uplink.index, p, kernel.Val());
        FlagsKept(cfg, o, uplink.index, inst.(lo6 := p));
        installed := installed[uplink.name := inst.(lo6 := p)];
      }
      assert OwnVal().sh == With(o, uplink.name, inst.(lo6 := p)).sh;
    }

    method SyncPdLo6(uplink: Uplink, p: Option<Prefix>)
      requires Valid() && Mine(uplink)
      modifies kernel, this`installed
      ensures Valid() && Mine(uplink)
      ensures OwnVal() == With(old(OwnVal()), uplink.name, old(installed[uplink.name]).(pdLo6 := p))
      ensures p == old(installed[uplink.name].pdLo6) ==> kernel.commands == old(kernel.commands)
    {
      hide Accepted, Agrees, WellNamed, Flagged6, Events, Names, Free;
      var inst, prio, tbl := installed[uplink.name], Ipv6PdLoToUplink(cfg, uplink.index), UplinkTable(cfg, uplink.index);
      ghost var k, o := kernel.Val(), OwnVal();
      if p != inst.pdLo6 {
        kernel.Swap6(prio, inst.pdLo6.Some?, LoRuleOf(p, tbl));
        SwapPdLo6(k, cfg, o, base, uplink.index, p, kernel.Val());
        FlagsKept(cfg, o, uplink.index, inst.(pdLo6 := p));
        installed := installed[uplink.name := inst.(pdLo6 := p)];
      }
      assert OwnVal().sh == With(o, uplink.name, inst.(pdLo6 := p)).sh;
    }

    method SyncLo4(uplink: Uplink, addr: Option<string>)
      requires Valid() && Mine(uplink)
      modifies kernel, this`installed
      ensures Valid() && Mine(uplink)
      ensures OwnVal() == With(old(OwnVal()), uplink.name, old(installed[uplink.name]).(lo4 := addr))
      ensures addr == old(installed[uplink.name].lo4) ==> kernel.commands == old(kernel.commands)
    {
      hide Accepted, Agrees, WellNamed, Flagged6, Events, Names, Free;
      var inst, prio, tbl := installed[uplink.name], Ipv4LoToUplink(cfg, uplink.index), UplinkTable(cfg, uplink.index);
      ghost var k, o := kernel.Val(), OwnVal();
      if addr != inst.lo4 {
        kernel.Swap4(prio, inst.lo4.Some?, if addr.Some? then Some(LoRule4(addr.value, tbl)) else None);
        SwapLo4(k, cfg, o, base, uplink.index, addr, kernel.Val());
        FlagsKept(cfg, o, uplink.index, inst.(lo4 := addr));
        installed := installed[uplink.name := inst.(lo4 := addr)];
      }
      assert OwnVal().sh == With(o, uplink.name, inst.(lo4 := addr)).sh;
    }

    /** The route in the shared table and the one in the uplink's own table are kept in step. */
    method SyncGw4(uplink: Uplink, gw: Option<string>)
      requires Valid() && Mine(uplink)
      modifies kernel, this`installed
      ensures Valid() && Mine(uplink)
      ensures OwnVal() == With(old(OwnVal()), uplink.name, old(installed[uplink.name]).(gw4 := gw))
      ensures gw == old(installed[uplink.name].gw4) ==> kernel.commands == old(kernel.commands)
    {
      hide Accepted, Agrees, WellNamed, Flagged6, Events, Names, Free, DelRoute;
      var inst := installed[uplink.name];
      ghost var k, o := kernel.Val(), OwnVal();
      if gw != inst.gw4 {
        if gw.Some? {
          kernel.ReplaceIpv4Route(gw.value, uplink.iface, uplink.metric, Ipv4Table(cfg));
          kernel.ReplaceIpv4Route(gw.value, uplink.iface, 0, UplinkTable(cfg, uplink.index));
        } else {
          kernel.DelIpv4Route(uplink.iface, Ipv4Table(cfg));
          kernel.DelIpv4Route(uplink.iface, UplinkTable(cfg, uplink.index));
        }
        SetGw4(k, cfg, o, base, uplink.index, gw, kernel.Val());
        FlagsKept(cfg, o, uplink.index, inst.(gw4 := gw));
        KeysKept(o.sh, uplink.name, inst.(gw4 := gw));
        installed := installed[uplink.name := inst.(gw4 := gw)];
      }
      assert OwnVal().sh == With(o, uplink.name, inst.(gw4 := gw)).sh;
    }

    /** The IPv6 default route is always replaced, to refresh its expiry, while there is an advertisement. */
    method SyncRoute6(uplink: Uplink, l: Leases)
      requires Valid() && Mine(uplink)
      modifies kernel, this`installed, this`routes6
      ensures Valid() && Mine(uplink)
      ensures OwnVal() == WithRoute6(old(OwnVal()), uplink.name, TargetRoute6(uplink, l), old(installed[uplink.name]))
      ensures l.ra.Some? || !old(installed[uplink.name].route6) ==> kernel.commands == old(kernel.commands)
    {
      hide Valid;
      var inst := installed[uplink.name];
      if l.ra.Some? || inst.route6 {
        ChangeRoute6(uplink, l);
      } else {
        NoRouteHeld(uplink);
        assert installed == installed[uplink.name := inst.(route6 := false)];
      }
    }

    method ChangeRoute6(uplink: Uplink, l: Leases)
      requires Valid() && Mine(uplink) && (l.ra.Some? || installed[uplink.name].route6)
      modifies kernel, this`installed, this`routes6
      ensures Valid() && Mine(uplink)
      ensures OwnVal() == WithRoute6(old(OwnVal()), uplink.name, TargetRoute6(uplink, l), old(installed[uplink.name]))
      ensures l.ra.Some? ==> kernel.commands == old(kernel.commands)
    {
      hide Accepted, Agrees, WellNamed, Events, Names, Free, DelRoute, Flagged6;
      var inst, tbl := installed[uplink.name], UplinkTable(cfg, uplink.index);
      ghost var k, o := kernel.Val(), OwnVal();
      if l.ra.Some? {
        var ra := l.ra.value;
        kernel.ReplaceIpv6Route(ra.gateway, uplink.iface, tbl, ra.lifetime, ra.Remaining(l.now));
      } else {
        kernel.DelIpv6Route(uplink.iface, tbl);
      }
      ghost var r := TargetRoute6(uplink, l);
      SetRoute6(k, cfg, o, base, uplink.index, r, kernel.Val());
      FlagsSet(cfg, o, uplink.index, r);
      installed, routes6 := installed[uplink.name := inst.(route6 := l.ra.Some?)], routes6[uplink.name := r];
      KeysKept(o.sh, uplink.name, inst.(route6 := l.ra.Some?));
      KeysKept(o.r6, uplink.name, r);
    }

    lemma NoRouteHeld(uplink: Uplink)
      requires Valid() && Mine(uplink) && !installed[uplink.name].route6
      ensures routes6 == routes6[uplink.name := None]
    {
      hide Accepted, Agrees, WellNamed, Events, Free;
    }

    // -------------------------------------------------------------- reconcile

    /** The part of the IPv4 pass that follows the health check. */
    method SyncIpv4(uplink: Uplink, gw: Option<string>, addr: Option<string>)
      requires Valid() && Mine(uplink)
      modifies kernel, this`installed
      ensures Valid() && Mine(uplink)
      ensures OwnVal() == With(old(OwnVal()), uplink.name, old(installed[uplink.name]).(gw4 := gw, lo4 := addr))
      ensures installed == old(installed) ==> kernel.commands == old(kernel.commands)
    {
      hide Valid;
      ghost var o, i := OwnVal(), installed[uplink.name];
      SyncGw4(uplink, gw);
      SyncLo4(uplink, addr);
      WithTwice(o, uplink.name, i.(gw4 := gw), i.(gw4 := gw, lo4 := addr));
      assert installed[uplink.name] == i.(gw4 := gw, lo4 := addr);
    }

    method ReconcileUplinkIpv4(uplink: Uplink, l: Leases)
      requires Valid() && Mine(uplink)
      modifies kernel, this`installed, this`queue, this`trace, states[uplink.name]
      ensures Valid() && Mine(uplink)
      ensures CoreVal() == Reconcile4(cfg, old(CoreVal()), uplink.index, l)
      ensures installed == old(installed)[uplink.name := installed[uplink.name]]
      ensures installed[uplink.name] == old(installed[uplink.name]).(gw4 := installed[uplink.name].gw4, lo4 := installed[uplink.name].lo4)
      ensures installed == old(installed) ==> kernel.commands == old(kernel.commands)
    {
      hide Valid, Events, Names, Accepted;
      ghost var hs := HealthVal();
      var st := states[uplink.name];
      if l.v4.None? && st.ipv4 == Up {
        ForceLinkDown(uplink, V4);
      }
      assert HealthVal() == hs[uplink.name := LeaseHealth4(hs[uplink.name], l)];
      var gw := if l.v4.Some? && st.ipv4 == Up then Some(l.v4.value.gateway) else None;
      var addr := if l.v4.Some? && l.v4.value.address != "" && st.ipv4 == Up then Some(l.v4.value.address) else None;
      SyncIpv4(uplink, gw, addr);
      assert HealthVal() == hs[uplink.name := LeaseHealth4(hs[uplink.name], l)];
    }

    /** The IPv6 route and the two rules for the router's own packets. */
    method SyncIpv6(uplink: Uplink, l: Leases, up6: bool)
      requires Valid() && Mine(uplink)
      modifies kernel, this`installed, this`routes6
      ensures Valid() && Mine(uplink)
      ensures OwnVal() == With(old(OwnVal()), uplink.name,
                               old(installed[uplink.name]).(route6 := l.ra.Some?,
                                                            lo6 := if up6 then LoSource6(l) else None,
                                                            pdLo6 := if up6 then Delegation(l) else None))
                            .(r6 := old(routes6)[uplink.name := TargetRoute6(uplink, l)])
      ensures installed == old(installed) ==> kernel.commands == old(kernel.commands)
    {
      hide Valid, LoSource6, Delegation;
      ghost var o, i := OwnVal(), installed[uplink.name];
      SyncRoute6(uplink, l);
      SyncLo6(uplink, if up6 then LoSource6(l) else None);
      SyncPdLo6(uplink, if up6 then Delegation(l) else None);
      ghost var j := i.(route6 := l.ra.Some?, lo6 := if up6 then LoSource6(l) else None, pdLo6 := if up6 then Delegation(l) else None);
      assert installed[uplink.name] == j;
      assert installed == o.sh[uplink.name := j];
    }

    /** The rules of the uplink's macvlans. */
    method SyncMacvlans(uplink: Uplink, l: Leases)
      requires Valid() && Mine(uplink) && Ipv6Uplink(uplink)
      modifies kernel, this`installed
      ensures Valid() && Mine(uplink)
      ensures OwnVal() == With(old(OwnVal()), uplink.name, MacvlanTarget(cfg, uplink.index, old(installed[uplink.name]), l))
      ensures installed == old(installed) ==> kernel.commands == old(kernel.commands)
    {
      hide Valid, Narrow, MvSet;
      if l.pd.Some? {
        ReconcileMacvlanRules(uplink, Delegation(l).value);
      } else {
        TeardownMacvlanProhibitRules(uplink);
      }
    }

    /** The part of the IPv6 pass that follows the health check. */
    method ApplyIpv6(uplink: Uplink, l: Leases, up6: bool)
      requires Valid() && Mine(uplink) && Ipv6Uplink(uplink)
      modifies kernel, this`installed, this`routes6
      ensures Valid() && Mine(uplink)
      ensures forall h: Health :: (h.v6.state.Up? <==> up6) ==> OwnVal() == Own6(cfg, old(OwnVal()), uplink.index, h, l)
      ensures installed == old(installed)[uplink.name := installed[uplink.name]]
      ensures installed[uplink.name].gw4 == old(installed[uplink.name].gw4) && installed[uplink.name].lo4 == old(installed[uplink.name].lo4)
      ensures installed == old(installed) ==> kernel.commands == old(kernel.commands)
    {
      hide Valid, Narrow, MvSet, LoSource6;
      ghost var o, i := OwnVal(), installed[uplink.name];
      SyncIpv6(uplink, l, up6);
      ghost var j := installed[uplink.name];
      SyncMacvlans(uplink, l);
      assert installed == o.sh[uplink.name := installed[uplink.name]];
      assert installed[uplink.name] == i ==> j == i && o.sh[uplink.name := j] == o.sh;
    }

    method ReconcileUplinkIpv6(uplink: Uplink, l: Leases)
      requires Valid() && Mine(uplink)
      modifies kernel, this`installed, this`routes6, this`queue, this`trace, states[uplink.name]
      ensures Valid() && Mine(uplink)
      ensures CoreVal() == Reconcile6(cfg, old(CoreVal()), uplink.index, l)
      ensures installed == old(installed)[uplink.name := installed[uplink.name]]
      ensures installed[uplink.name].gw4 == old(installed[uplink.name].gw4) && installed[uplink.name].lo4 == old(installed[uplink.name].lo4)
      ensures installed == old(installed) ==> kernel.commands == old(kernel.commands)
    {
      hide Valid, Events, Names, Accepted, Own6, TargetRoute6, LeaseHealth6, Trace6;
      if !uplink.ipv6Pd && !uplink.iaNa {
        return;
      }
      CheckIpv6(uplink, l);
      ApplyIpv6(uplink, l, states[uplink.name].ipv6 == Up);
      assert HealthVal() == old(HealthVal())[uplink.name := LeaseHealth6(old(HealthVal())[uplink.name], l)];
    }

    /** With no record at all the link is forced DOWN; a delegation is noted in the history. */
    method CheckIpv6(uplink: Uplink, l: Leases)
      requires Valid() && Mine(uplink)
      modifies this`queue, this`trace, states[uplink.name]
      ensures Valid() && Mine(uplink)
      ensures var h, hs := old(HealthVal())[uplink.name], old(HealthVal());
              && HealthVal() == hs[uplink.name := LeaseHealth6(h, l)]
              && trace == Trace6(old(trace), uplink.name, LeaseHealth6(h, l) != h, l)
    {
      hide Valid;
      if l.ra.None? && l.pd.None? && l.na.None? && states[uplink.name].ipv6 == Up {
        ForceLinkDown(uplink, V6);
      }
      NoteDelegation(uplink.name, l);
    }

    ghost method NoteDelegation(name: string, l: Leases)
      requires Valid()
      modifies this`trace
      ensures Valid()
      ensures trace == if l.pd.Some? then old(trace) + [PdSeen(name, Delegation(l).value)] else old(trace)
    {
      hide Accepted, Agrees, WellNamed, Flagged6, Events, Names, Free;
      if l.pd.Some? {
        Pushed(trace, PdSeen(name, Delegation(l).value));
        trace := trace + [PdSeen(name, Delegation(l).value)];
      }
    }

    /** Name of one macvlan of an IPv6 uplink. */
    method NameOfMacvlan(uplink: Uplink, n: nat) returns (mv: string)
      requires Valid() && Mine(uplink) && Ipv6Uplink(uplink) && n < |cfg.networks|
      ensures mv == Mv(cfg, uplink.index, n) && Named(cfg, uplink.index)
    {
      mv := MacvlanName(cfg.networks[n].iface, uplink.index).value;
    }

    /** Replace the accept rule of one macvlan in place if its constraint is not `p`. */
    method NarrowFwd(uplink: Uplink, n: nat, p: Option<Prefix>)
      requires Valid() && Mine(uplink) && Ipv6Uplink(uplink) && n < |cfg.networks|
      modifies kernel, this`installed
      ensures Valid() && Mine(uplink)
      ensures var i, mv := old(installed[uplink.name]), Mv(cfg, uplink.index, n);
              OwnVal() == With(old(OwnVal()), uplink.name, i.(fwd := if GetOr(i.fwd, mv, None) != p then i.fwd[mv := p] else i.fwd))
      ensures installed == old(installed) ==> kernel.commands == old(kernel.commands)
    {
      hide Accepted, Agrees, WellNamed, Flagged6, Events, Names, Free, Mv, NamesExist, NamesDistinct;
      var mv := NameOfMacvlan(uplink, n);
      var inst, tbl := installed[uplink.name], UplinkTable(cfg, uplink.index);
      ghost var k, o := kernel.Val(), OwnVal();
      if GetOr(inst.fwd, mv, None) != p {
        kernel.Swap6(Ipv6FwdToUplink(cfg, uplink.index, n), true, Some(FwdRule(mv, tbl, p)));
        SwapFwd(k, cfg, o, base, uplink.index, n, true, Some(p), kernel.Val());
        FlagsKept(cfg, o, uplink.index, inst.(fwd := inst.fwd[mv := p]));
        installed := installed[uplink.name := inst.(fwd := inst.fwd[mv := p])];
        assert installed[uplink.name].fwd != inst.fwd;
      }
      assert OwnVal().sh == With(o, uplink.name, installed[uplink.name]).sh;
    }

    method SetProhibitRule(uplink: Uplink, n: nat, on: bool)
      requires Valid() && Mine(uplink) && Ipv6Uplink(uplink) && n < |cfg.networks|
      modifies kernel, this`installed
      ensures Valid() && Mine(uplink)
      ensures var i, mv := old(installed[uplink.name]), Mv(cfg, uplink.index, n);
              OwnVal() == With(old(OwnVal()), uplink.name, i.(prohibit := if on then i.prohibit + {mv} else i.prohibit - {mv}))
      ensures installed == old(installed) ==> kernel.commands == old(kernel.commands)
    {
      hide Accepted, Agrees, WellNamed, Flagged6, Events, Names, Free, Mv, NamesExist, NamesDistinct;
      var mv := NameOfMacvlan(uplink, n);
      var inst, prio := installed[uplink.name], Ipv6RejectWrongPdSrc(cfg, uplink.index, n);
      ghost var k, o := kernel.Val(), OwnVal();
      var prohibit := if on then inst.prohibit + {mv} else inst.prohibit - {mv};
      if on != (mv in inst.prohibit) {
        kernel.Swap6(prio, !on, if on then Some(ProhibitRule(mv)) else None);
        SwapProhibit(k, cfg, o, base, uplink.index, n, on, kernel.Val());
        FlagsKept(cfg, o, uplink.index, inst.(prohibit := prohibit));
        installed := installed[uplink.name := inst.(prohibit := prohibit)];
        assert mv in prohibit <==> mv !in inst.prohibit;
      } else {
        assert prohibit == inst.prohibit;
      }
      assert OwnVal().sh == With(o, uplink.name, inst.(prohibit := prohibit)).sh;
    }

    /** One network of `_reconcile_macvlan_rules`. */
    method ReconcileMacvlan(uplink: Uplink, n: nat, p: Option<Prefix>)
      requires Valid() && Mine(uplink) && Ipv6Uplink(uplink) && n < |cfg.networks|
      modifies kernel, this`installed
      ensures Valid() && Mine(uplink)
      ensures var i, mv := old(installed[uplink.name]), Mv(cfg, uplink.index, n);
              OwnVal() == With(old(OwnVal()), uplink.name,
                               i.(fwd := if GetOr(i.fwd, mv, None) != p then i.fwd[mv := p] else i.fwd,
                                  prohibit := if cfg.rejectWrongPdSrc then i.prohibit + {mv} else i.prohibit))
      ensures installed == old(installed) ==> kernel.commands == old(kernel.commands)
    {
      hide Valid, Mv;
      ghost var o, i := OwnVal(), installed[uplink.name];
      NarrowFwd(uplink, n, p);
      ghost var j := installed[uplink.name];
      if cfg.rejectWrongPdSrc {
        SetProhibitRule(uplink, n, true);
      }
      assert installed == o.sh[uplink.name := installed[uplink.name]];
      assert installed[uplink.name] == i ==> j == i && o.sh[uplink.name := j] == o.sh;
    }

    method ReconcileMacvlanRules(uplink: Uplink, pd: Prefix)
      requires Valid() && Mine(uplink) && Ipv6Uplink(uplink)
      modifies kernel, this`installed
      ensures Valid() && Mine(uplink)
      ensures var i, mvs := old(installed[uplink.name]), MvSet(cfg, uplink.index, |cfg.networks|);
              OwnVal() == With(old(OwnVal()), uplink.name,
                               i.(fwd := Narrow(i.fwd, mvs, if cfg.rejectWrongPdSrc then Some(pd) else None),
                                  prohibit := if cfg.rejectWrongPdSrc then i.prohibit + mvs else i.prohibit))
      ensures installed == old(installed) ==> kernel.commands == old(kernel.commands)
    {
      hide Valid, Mv, MvTarget;
      var delegated := if cfg.rejectWrongPdSrc then Some(pd) else None;
      ghost var o, i, u := OwnVal(), installed[uplink.name], uplink.index;
      MvTargetEnds(cfg, u, i, delegated);
      assert o.sh[uplink.name := i] == o.sh;
      for n := 0 to |cfg.networks|
        invariant Valid() && Mine(uplink)
        invariant OwnVal() == With(o, uplink.name, MvTarget(cfg, u, i, n, delegated))
        invariant MvTarget(cfg, u, i, n, delegated) == i ==> kernel.commands == old(kernel.commands)
      {
        MvTargetStep(cfg, u, i, n, delegated);
        ReconcileMacvlan(uplink, n, delegated);
        WithTwice(o, uplink.name, MvTarget(cfg, u, i, n, delegated), MvTarget(cfg, u, i, n + 1, delegated));
      }
    }

    method TeardownMacvlanProhibitRules(uplink: Uplink)
      requires Valid() && Mine(uplink) && Ipv6Uplink(uplink)
      modifies kernel, this`installed
      ensures Valid() && Mine(uplink)
      ensures OwnVal() == With(old(OwnVal()), uplink.name, Permitted(cfg, uplink.index, old(installed[uplink.name]), |cfg.networks|))
      ensures installed == old(installed) ==> kernel.commands == old(kernel.commands)
    {
      hide Valid, Mv, Permitted;
      ghost var o, i, u := OwnVal(), installed[uplink.name], uplink.index;
      PermittedEnds(cfg, u, i);
      assert o.sh[uplink.name := i] == o.sh;
      for n := 0 to |cfg.networks|
        invariant Valid() && Mine(uplink)
        invariant OwnVal() == With(o, uplink.name, Permitted(cfg, u, i, n))
        invariant Permitted(cfg, u, i, n) == i ==> kernel.commands == old(kernel.commands)
      {
        PermittedStep(cfg, u, i, n);
        SetProhibitRule(uplink, n, false);
        WithTwice(o, uplink.name, Permitted(cfg, u, i, n), Permitted(cfg, u, i, n + 1));
      }
    }

    method ReconcileUplink(uplink: Uplink, l: Leases)
      requires Valid() && Mine(uplink)
      modifies kernel, this`installed, this`routes6, this`queue, this`trace, states[uplink.name]
      ensures Valid() && Mine(uplink)
      ensures CoreVal() == ReconcileOne(cfg, old(CoreVal()), uplink.index, l)
      ensures installed == old(installed)[uplink.name := installed[uplink.name]]
      ensures installed == old(installed) ==> kernel.commands == old(kernel.commands)
    {
      hide Valid, Reconcile4, Reconcile6;
      ghost var before := installed;
      ReconcileUplinkIpv4(uplink, l);
      ghost var mid := installed;
      ReconcileUplinkIpv6(uplink, l);
      assert installed == before[uplink.name := installed[uplink.name]];
      // the two passes write disjoint parts of the record
      assert installed == before ==> mid == before;
    }

    method ReconcileAll(files: Snapshot)
      requires Valid()
      modifies kernel, this`installed, this`routes6, this`queue, this`trace, states.Values
      ensures Valid()
      ensures CoreVal() == Reconcile.ReconcileAll(cfg, old(CoreVal()), files, |cfg.uplinks|)
      ensures installed == old(installed) ==> kernel.commands == old(kernel.commands)
    {
      hide Valid, ReconcileOne, HealthVal, SameFrom;
      SameFromStart(cfg, installed);
      for i := 0 to |cfg.uplinks|
        invariant Valid()
        invariant CoreVal() == Reconcile.ReconcileAll(cfg, old(CoreVal()), files, i)
        invariant SameFrom(cfg, old(installed), installed, i)
        invariant installed == old(installed) ==> kernel.commands == old(kernel.commands)
      {
        IndexOf(i);
        ghost var before := installed;
        ReconcileUplink(cfg.uplinks[i], Read(files, cfg.uplinks[i].name));
        SameFromStep(cfg, old(installed), before, i, installed[cfg.uplinks[i].name]);
      }
    }

    /** A pass in a state that a pass over the same records left, read at another time: no rule command, no event, nothing
        recorded anew. */
    method ReconcileAgain(files: Snapshot, ghost before: Core, ghost first: Snapshot)
      requires Valid() && RecordOk(cfg, before) && SameRecords(first, files)
      requires CoreVal() == Reconcile.ReconcileAll(cfg, before, first, |cfg.uplinks|)
      modifies kernel, this`installed, this`routes6, this`queue, this`trace, states.Values
      ensures Valid()
      ensures kernel.commands == old(kernel.commands) && queue == old(queue)
      ensures installed == old(installed) && HealthVal() == old(HealthVal())
    {
      hide Valid, RecordOk, Reconcile.ReconcileAll, SameRecords, Events, HealthVal, Accepted;
      RadvdReady();
      Queued();
      SecondPass(cfg, before, first, files);
      ReconcileAll(files);
      Queued();
    }

    lemma IndexOf(i: nat)
      requires Valid() && i < |cfg.uplinks|
      ensures Mine(cfg.uplinks[i]) && cfg.uplinks[i].index == i
      ensures forall j :: 0 <= j < |cfg.uplinks| && j != i ==> cfg.uplinks[j].name != cfg.uplinks[i].name
      ensures forall j :: 0 <= j < |cfg.uplinks| ==> cfg.uplinks[j].name in installed
    {
    }

    // -------------------------------------------------------------- monitoring cycle

    method StepUplink(uplink: Uplink, p: Pings) returns (changed4: bool, changed6: bool)
      requires Valid() && Mine(uplink)
      modifies states[uplink.name]
      ensures Valid() && Mine(uplink)
      ensures HealthVal() == old(HealthVal())[uplink.name := StepHealth(cfg, uplink.index, old(HealthVal())[uplink.name], p)]
      ensures changed4 <==> HealthVal()[uplink.name].v4.state != old(HealthVal())[uplink.name].v4.state
      ensures changed6 <==> HealthVal()[uplink.name].v6.state != old(HealthVal())[uplink.name].v6.state
    {
      hide Accepted, Agrees, WellNamed, Flagged6, Events, Names, Free, Step;
      ghost var hs := HealthVal();
      var st, enabled := states[uplink.name], uplink.ipv6Pd || uplink.iaNa;
      changed4, changed6 := st.Update(p.v4, !enabled || p.v6, enabled, cfg.failureThreshold, cfg.recoveryThreshold);
      assert st.Val() == StepHealth(cfg, uplink.index, hs[uplink.name], p);
      HealthUpdated(hs, uplink.name, st.Val());
    }

    method ObserveUplink(uplink: Uplink, p: Pings) returns (changed4: bool, changed6: bool)
      requires Valid() && Mine(uplink)
      modifies this`trace, states[uplink.name]
      ensures Valid() && Mine(uplink)
      ensures CoreVal() == Reconcile.Observe(cfg, old(CoreVal()), uplink.index, p)
      ensures changed4 <==> Changed(cfg, old(CoreVal()), uplink.index, p, V4)
      ensures changed6 <==> Changed(cfg, old(CoreVal()), uplink.index, p, V6)
    {
      hide Valid, StepHealth;
      changed4, changed6 := StepUplink(uplink, p);
      NoteProbes(uplink, p);
    }

    ghost method NoteProbes(uplink: Uplink, p: Pings)
      requires Valid()
      modifies this`trace
      ensures Valid()
      ensures trace == if Ipv6Uplink(uplink) then old(trace) + [Probed(uplink.name, V4, p.v4)] + [Probed(uplink.name, V6, p.v6)]
                       else old(trace) + [Probed(uplink.name, V4, p.v4)]
    {
      hide Accepted, Agrees, WellNamed, Flagged6, Events, Names, Free;
      Note(Probed(uplink.name, V4, p.v4));
      if Ipv6Uplink(uplink) {
        Note(Probed(uplink.name, V6, p.v6));
      }
    }

    method FireWanEvent(uplink: Uplink, f: Family)
      requires Valid() && Mine(uplink)
      modifies this`queue, this`trace
      ensures Valid() && Mine(uplink)
      ensures CoreVal() == Report(cfg, old(CoreVal()), uplink.index, f)
    {
      hide Valid;
      var st := states[uplink.name];
      FireOne(Wan(uplink.name, f, if f.V4? then st.ipv4 else st.ipv6));
    }

    method CycleUplink(uplink: Uplink, p: Pings, l: Leases) returns (changed6: bool)
      requires Valid() && Mine(uplink)
      modifies kernel, this`installed, this`routes6, this`queue, this`trace, states[uplink.name]
      ensures Valid() && Mine(uplink)
      ensures CoreVal() == CycleOne(cfg, old(CoreVal()), uplink.index, p, l)
      ensures changed6 <==> Changed(cfg, old(CoreVal()), uplink.index, p, V6)
    {
      hide Valid, Reconcile4, Reconcile6, Report, Reconcile.Observe, Changed;
      var changed4;
      changed4, changed6 := ObserveUplink(uplink, p);
      if changed4 {
        ReconcileUplinkIpv4(uplink, l);
        FireWanEvent(uplink, V4);
      }
      if changed6 {
        ReconcileUplinkIpv6(uplink, l);
        FireWanEvent(uplink, V6);
      }
    }

    method RunCycleUplinks(probes: Probing, files: Snapshot) returns (anyIpv6Change: bool)
      requires Valid()
      modifies kernel, this`installed, this`routes6, this`queue, this`trace, states.Values
      ensures Valid()
      ensures CoreVal() == Cycle(cfg, old(CoreVal()), probes, files, |cfg.uplinks|)
      ensures anyIpv6Change <==> AnyIpv6Change(cfg, old(CoreVal()), probes, files, |cfg.uplinks|)
    {
      hide Valid, CycleOne, Changed, HealthVal, OwnVal;
      anyIpv6Change := false;
      for i := 0 to |cfg.uplinks|
        invariant Valid()
        invariant CoreVal() == Cycle(cfg, old(CoreVal()), probes, files, i)
        invariant anyIpv6Change <==> AnyIpv6Change(cfg, old(CoreVal()), probes, files, i)
      {
        IndexOf(i);
        var name := cfg.uplinks[i].name;
        var changed6 := CycleUplink(cfg.uplinks[i], PingsOf(probes, name), Read(files, name));
        anyIpv6Change := anyIpv6Change || changed6;
      }
    }

    // -------------------------------------------------------------- primaries

    method BestIpv4() returns (best: Option<Uplink>)
      requires Valid()
      ensures match PrimaryIpv4(cfg, HealthVal())
              case Some(u) => best == Some(cfg.uplinks[u])
              case None => best.None?
    {
      hide Valid;
      best := None;
      for i := 0 to |cfg.uplinks|
        invariant match BestUp4(cfg, HealthVal(), i)
                  case Some(u) => best == Some(cfg.uplinks[u])
                  case None => best.None?
      {
        IndexOf(i);
        var uplink := cfg.uplinks[i];
        if states[uplink.name].ipv4 == Up && (best.None? || uplink.metric < best.value.metric) {
          best := Some(uplink);
        }
      }
    }

    /** The interface of the first uplink of that name, if there is one. */
    method IfaceByName(name: Option<string>) returns (iface: Option<string>)
      ensures iface == IfaceFrom(cfg, name, 0)
    {
      for i := 0 to |cfg.uplinks|
        invariant IfaceFrom(cfg, name, 0) == IfaceFrom(cfg, name, i)
      {
        if name == Some(cfg.uplinks[i].name) {
          return Some(cfg.uplinks[i].iface);
        }
      }
      iface := None;
    }

    /** The interface of the new primary is that of the uplink of its name. */
    lemma NewIface(u: Option<nat>)
      requires Accepted(cfg) && (u.Some? ==> u.value < |cfg.uplinks|)
      ensures IfaceFrom(cfg, NameAt(cfg, u), 0) == if u.Some? then Some(cfg.uplinks[u.value].iface) else None
    {
      if u.Some? {
        IfaceOfUplink(cfg, u.value, 0);
      } else {
        NoIface(0);
      }
    }

    lemma {:induction false} NoIface(i: nat)
      requires i <= |cfg.uplinks|
      ensures IfaceFrom(cfg, None, i) == None
      decreases |cfg.uplinks| - i
    {
      if i < |cfg.uplinks| {
        NoIface(i + 1);
      }
    }

    method UpdatePrimaryIpv4()
      requires Valid()
      modifies this`queue, this`trace, this`primaryIpv4
      ensures Valid()
      ensures primaryIpv4 == NameAt(cfg, PrimaryIpv4(cfg, HealthVal()))
      ensures trace == ReportPrimary(cfg, old(trace), V4, old(primaryIpv4), primaryIpv4)
    {
      hide Valid, Accepted, IfaceFrom;
      RadvdReady();
      var best := BestIpv4();
      NewIface(PrimaryIpv4(cfg, HealthVal()));
      var name := if best.Some? then Some(best.value.name) else None;
      assert name == NameAt(cfg, PrimaryIpv4(cfg, HealthVal()));
      hide PrimaryIpv4;
      if name != primaryIpv4 {
        var oldIface := IfaceByName(primaryIpv4);
        FireOne(PrimaryChange(V4, primaryIpv4, name, oldIface, if best.Some? then Some(best.value.iface) else None));
        primaryIpv4 := name;
      }
    }

    method UpdatePrimaryIpv6()
      requires Valid()
      modifies this`queue, this`trace, this`primaryIpv6
      ensures Valid()
      ensures primaryIpv6 == NameAt(cfg, PrimaryIpv6(cfg, HealthVal()))
      ensures trace == ReportPrimary(cfg, old(trace), V6, old(primaryIpv6), primaryIpv6)
    {
      hide Valid, FirstUp6, Accepted, IfaceFrom;
      RadvdReady();
      var first := FirstUpMethod(cfg, states, HealthVal());
      NewIface(PrimaryIpv6(cfg, HealthVal()));
      var name := if first.Some? then Some(first.value.name) else None;
      assert name == NameAt(cfg, PrimaryIpv6(cfg, HealthVal()));
      hide PrimaryIpv6;
      if name != primaryIpv6 {
        var oldIface := IfaceByName(primaryIpv6);
        FireOne(PrimaryChange(V6, primaryIpv6, name, oldIface, if first.Some? then Some(first.value.iface) else None));
        primaryIpv6 := name;
      }
    }

    method UpdatePrimaryUplinks()
      requires Valid()
      modifies this`queue, this`trace, this`primaryIpv4, this`primaryIpv6
      ensures Valid()
      ensures Val() == UpdatePrimaries(old(Val()))
    {
      hide Valid, PrimaryIpv4, PrimaryIpv6, NameAt, ReportPrimary;
      UpdatePrimaryIpv4();
      UpdatePrimaryIpv6();
    }

    // -------------------------------------------------------------- setup

    method SetupIpv4Rules()
      requires Valid() && !ipv4RulesInstalled
      modifies kernel, this`ipv4RulesInstalled
      ensures Valid() && OwnVal() == old(OwnVal()).(on4 := true)
    {
      hide Accepted, Agrees, WellNamed, Events, Names, Free;
      ghost var k, o := kernel.Val(), OwnVal();
      kernel.AddIpv4PolicyRules(Ipv4InternalTraffic(cfg), Ipv4FwdToWan(cfg), Ipv4Table(cfg));
      SwapOn4(k, cfg, o, base, true, kernel.Val());
      ipv4RulesInstalled := true;
    }

    method SetupIpv6Rules()
      requires Valid() && !ipv6RuleInstalled
      modifies kernel, this`ipv6RuleInstalled
      ensures Valid() && OwnVal() == old(OwnVal()).(on6 := true)
    {
      hide Accepted, Agrees, WellNamed, Events, Names, Free;
      ghost var k, o := kernel.Val(), OwnVal();
      kernel.AddRule6(Ipv6InternalTraffic(cfg), MainRule());
      SwapOn6(k, cfg, o, base, true, kernel.Val());
      ipv6RuleInstalled := true;
    }

    method AddFwd(uplink: Uplink, n: nat)
      requires Valid() && Mine(uplink) && Ipv6Uplink(uplink) && n < |cfg.networks|
      requires Mv(cfg, uplink.index, n) !in installed[uplink.name].fwd
      modifies kernel, this`installed
      ensures Valid() && Mine(uplink)
      ensures var i := old(installed[uplink.name]);
              OwnVal() == With(old(OwnVal()), uplink.name, i.(fwd := i.fwd[Mv(cfg, uplink.index, n) := None]))
    {
      hide Accepted, Agrees, WellNamed, Flagged6, Events, Names, Free, Mv, NamesExist, NamesDistinct;
      var mv := NameOfMacvlan(uplink, n);
      var inst := installed[uplink.name];
      ghost var k, o := kernel.Val(), OwnVal();
      kernel.AddRule6(Ipv6FwdToUplink(cfg, uplink.index, n), FwdRule(mv, UplinkTable(cfg, uplink.index), None));
      SwapFwd(k, cfg, o, base, uplink.index, n, false, Some(None), kernel.Val());
      FlagsKept(cfg, o, uplink.index, inst.(fwd := inst.fwd[mv := None]));
      installed := installed[uplink.name := inst.(fwd := inst.fwd[mv := None])];
    }

    method SetupUplinkMacvlans(uplink: Uplink)
      requires Valid() && Mine(uplink) && Ipv6Uplink(uplink) && installed[uplink.name].fwd == map[]
      modifies kernel, this`installed
      ensures Valid() && Mine(uplink)
      ensures OwnVal() == With(old(OwnVal()), uplink.name,
                               old(installed[uplink.name]).(fwd := AllTo(MvSet(cfg, uplink.index, |cfg.networks|), None)))
    {
      hide Valid, Mv;
      ghost var o, i, u := OwnVal(), installed[uplink.name], uplink.index;
      assert AllTo(MvSet(cfg, u, 0), None) == i.fwd;
      assert o.sh[uplink.name := i] == o.sh;
      for n := 0 to |cfg.networks|
        invariant Valid() && Mine(uplink)
        invariant OwnVal() == With(o, uplink.name, i.(fwd := AllTo(MvSet(cfg, u, n), None)))
      {
        FreshName(uplink, n);
        AddFwd(uplink, n);
        WithTwice(o, uplink.name, i.(fwd := AllTo(MvSet(cfg, u, n), None)), i.(fwd := AllTo(MvSet(cfg, u, n + 1), None)));
      }
    }

    /** Distinct names: the next macvlan is not among those installed so far. */
    lemma FreshName(uplink: Uplink, n: nat)
      requires Valid() && Mine(uplink) && Ipv6Uplink(uplink) && n < |cfg.networks|
      ensures Mv(cfg, uplink.index, n) !in MvSet(cfg, uplink.index, n)
      ensures AllTo(MvSet(cfg, uplink.index, n), None)[Mv(cfg, uplink.index, n) := None] == AllTo(MvSet(cfg, uplink.index, n + 1), None)
    {
      hide Mv, Accepted, Agrees, Free, Flagged6, Events, Names;
      assert NamesDistinct(cfg, uplink.index);
    }

    method SetupIpv6MacvlanRules()
      requires Valid() && forall s :: s in installed ==> installed[s].fwd == map[]
      modifies kernel, this`installed
      ensures Valid()
      ensures OwnVal() == SetupFwd(cfg, old(OwnVal()), |cfg.uplinks|)
    {
      hide Valid, AllTo, MvSet;
      for i := 0 to |cfg.uplinks|
        invariant Valid()
        invariant OwnVal() == SetupFwd(cfg, old(OwnVal()), i)
        invariant forall j :: i <= j < |cfg.uplinks| && cfg.uplinks[j].name in installed ==> installed[cfg.uplinks[j].name].fwd == map[]
      {
        IndexOf(i);
        if cfg.uplinks[i].ipv6Pd {
          SetupUplinkMacvlans(cfg.uplinks[i]);
        }
      }
    }

    // -------------------------------------------------------------- teardown

    method DropFwd(uplink: Uplink, n: nat)
      requires Valid() && Mine(uplink) && Ipv6Uplink(uplink) && n < |cfg.networks|
      modifies kernel, this`installed
      ensures Valid() && Mine(uplink)
      ensures var i := old(installed[uplink.name]);
              OwnVal() == With(old(OwnVal()), uplink.name, i.(fwd := i.fwd - {Mv(cfg, uplink.index, n)}))
    {
      hide Accepted, Agrees, WellNamed, Flagged6, Events, Names, Free, Mv, NamesExist, NamesDistinct;
      var mv := NameOfMacvlan(uplink, n);
      var inst := installed[uplink.name];
      ghost var k, o := kernel.Val(), OwnVal();
      if mv in inst.fwd {
        kernel.DelIpv6Rule(Ipv6FwdToUplink(cfg, uplink.index, n));
        SwapFwd(k, cfg, o, base, uplink.index, n, true, None, kernel.Val());
        FlagsKept(cfg, o, uplink.index, inst.(fwd := inst.fwd - {mv}));
        installed := installed[uplink.name := inst.(fwd := inst.fwd - {mv})];
      } else {
        assert inst.fwd - {mv} == inst.fwd;
        assert o.sh[uplink.name := inst] == o.sh;
      }
    }

    method TeardownMacvlan(uplink: Uplink, n: nat)
      requires Valid() && Mine(uplink) && Ipv6Uplink(uplink) && n < |cfg.networks|
      modifies kernel, this`installed
      ensures Valid() && Mine(uplink)
      ensures var i, mv := old(installed[uplink.name]), Mv(cfg, uplink.index, n);
              OwnVal() == With(old(OwnVal()), uplink.name, i.(fwd := i.fwd - {mv}, prohibit := i.prohibit - {mv}))
    {
      hide Valid, Mv;
      ghost var o, i := OwnVal(), installed[uplink.name];
      DropFwd(uplink, n);
      ghost var j := installed[uplink.name];
      SetProhibitRule(uplink, n, false);
      WithTwice(o, uplink.name, j, installed[uplink.name]);
    }

    method TeardownMacvlanRules(uplink: Uplink)
      requires Valid() && Mine(uplink) && Ipv6Uplink(uplink)
      modifies kernel, this`installed
      ensures Valid() && Mine(uplink)
      ensures OwnVal() == With(old(OwnVal()), uplink.name,
                               MvGone(cfg, uplink.index, old(installed[uplink.name]), |cfg.networks|))
    {
      hide Valid, Mv, MvGone;
      ghost var o, i, u := OwnVal(), installed[uplink.name], uplink.index;
      MvGoneEnds(cfg, u, i);
      assert o.sh[uplink.name := i] == o.sh;
      for n := 0 to |cfg.networks|
        invariant Valid() && Mine(uplink)
        invariant OwnVal() == With(o, uplink.name, MvGone(cfg, u, i, n))
      {
        MvGoneStep(cfg, u, i, n);
        TeardownMacvlan(uplink, n);
        WithTwice(o, uplink.name, MvGone(cfg, u, i, n), MvGone(cfg, u, i, n + 1));
      }
    }

    /** The body of the loop of `_teardown_all`. */
    method TeardownUplink(uplink: Uplink, ghost lastPd: Option<Prefix>)
      requires Valid() && Mine(uplink) && InstalledOk(cfg, uplink.index, installed[uplink.name], lastPd)
      modifies kernel, this`installed, this`routes6
      ensures Valid() && Mine(uplink)
      ensures installed == old(installed)[uplink.name := NOTHING]
      ensures routes6 == old(routes6)[uplink.name := None]
    {
      hide Valid, MvGone, InstalledOk;
      ghost var o, i := OwnVal(), installed[uplink.name];
      NothingLeft(cfg, uplink.index, i, lastPd);
      if !uplink.ipv6Pd && !uplink.iaNa {
        NoIpv6(cfg, uplink.index, i, lastPd);
        NoRouteHeld(uplink);
      }
      SyncIpv4(uplink, None, None);
      if uplink.ipv6Pd || uplink.iaNa {
        SyncIpv6(uplink, NO_LEASES, false);
        TeardownMacvlanRules(uplink);
      }
      assert installed == o.sh[uplink.name := installed[uplink.name]];
    }

    method DropPolicyRules4()
      requires Valid()
      modifies kernel, this`ipv4RulesInstalled
      ensures Valid() && OwnVal() == old(OwnVal()).(on4 := false)
    {
      hide Accepted, WellNamed, Events, Names, Free;
      ghost var k, o := kernel.Val(), OwnVal();
      if ipv4RulesInstalled {
        kernel.DelIpv4PolicyRules(Ipv4InternalTraffic(cfg), Ipv4FwdToWan(cfg));
        SwapOn4(k, cfg, o, base, false, kernel.Val());
        ipv4RulesInstalled := false;
      }
    }

    method DropPolicyRule6()
      requires Valid()
      modifies kernel, this`ipv6RuleInstalled
      ensures Valid() && OwnVal() == old(OwnVal()).(on6 := false)
    {
      hide Accepted, WellNamed, Events, Names, Free;
      ghost var k, o := kernel.Val(), OwnVal();
      if ipv6RuleInstalled {
        kernel.DelIpv6Rule(Ipv6InternalTraffic(cfg));
        SwapOn6(k, cfg, o, base, false, kernel.Val());
        ipv6RuleInstalled := false;
      }
    }

    /** The loop of `_teardown_all`. */
    method TeardownUplinks()
      requires Valid() && RecordOk(cfg, CoreVal())
      modifies kernel, this`installed, this`routes6
      ensures Valid()
      ensures installed == NothingOwned(cfg).sh && routes6 == NothingOwned(cfg).r6
    {
      hide Valid, InstalledOk, RecordOk, TornDown, NothingOwned;
      ghost var c := CoreVal();
      TornDownStart(cfg, c);
      for i := 0 to |cfg.uplinks|
        invariant Valid()
        invariant TornDown(cfg, c.own, installed, routes6, i)
      {
        IndexOf(i);
        RecordAt(cfg, c, i);
        TornDownStep(cfg, c.own, installed, routes6, i);
        TeardownUplink(cfg.uplinks[i], LastPd(c.trace, NameOf(cfg, i)));
      }
      TornDownEnd(cfg, c.own, installed, routes6);
    }

    /** From a state that the history accounts for, teardown returns the kernel to what it was before the daemon started. */
    method TeardownAll()
      requires Valid() && RecordOk(cfg, CoreVal())
      modifies kernel, this`installed, this`routes6, this`ipv4RulesInstalled, this`ipv6RuleInstalled
      ensures Valid()
      ensures OwnVal() == NothingOwned(cfg) && kernel.Val() == base && !ipv4RulesInstalled && !ipv6RuleInstalled
      ensures Val() == old(Val()).(core := old(CoreVal()).(own := NothingOwned(cfg)))
    {
      hide Valid, RecordOk, NothingOwned, HealthVal;
      TeardownUplinks();
      DropPolicyRules4();
      DropPolicyRule6();
      NothingIn();
      assert HealthVal() == old(HealthVal());
    }

    lemma NothingIn()
      requires Valid() && installed == NothingOwned(cfg).sh && routes6 == NothingOwned(cfg).r6
      requires !ipv4RulesInstalled && !ipv6RuleInstalled
      ensures OwnVal() == NothingOwned(cfg) && kernel.Val() == base
    {
      hide Accepted, Agrees, WellNamed, Flagged6, Events, Free, Names;
      NothingIsBase(kernel.Val(), cfg, base);
    }

    // -------------------------------------------------------------- start and reload

    method NewStates() returns (sts: map<string, UplinkState>, insts: map<string, Installed>)
      ensures sts.Keys == Names(cfg) && forall s :: s in sts ==> fresh(sts[s]) && sts[s].name == s
      ensures forall s :: s in sts ==> sts[s].Val() == Health(FRESH, FRESH)
      ensures insts == NothingOwned(cfg).sh
    {
      sts, insts := map[], map[];
      for i := 0 to |cfg.uplinks|
        invariant sts.Keys == insts.Keys == set j | 0 <= j < i :: cfg.uplinks[j].name
        invariant forall s :: s in sts ==> fresh(sts[s]) && sts[s].name == s && sts[s].Val() == Health(FRESH, FRESH)
        invariant forall s :: s in insts ==> insts[s] == NOTHING
      {
        var name := cfg.uplinks[i].name;
        var st := new UplinkState(name);
        sts := sts[name := st];
        insts := insts[name := NOTHING];
      }
    }

    lemma AllFresh()
      requires states.Keys == Names(cfg) && forall s :: s in states ==> states[s].Val() == Health(FRESH, FRESH)
      ensures HealthVal() == (map s | s in Names(cfg) :: Health(FRESH, FRESH))
    {
    }

    /** A fresh state object and an empty record for every uplink. */
    method ResetStates()
      modifies this`states, this`installed, this`routes6
      ensures Separate() && fresh(states.Values)
      ensures HealthVal() == (map s | s in Names(cfg) :: Health(FRESH, FRESH))
      ensures installed == NothingOwned(cfg).sh && routes6 == NothingOwned(cfg).r6
    {
      hide Names, NothingOwned;
      NothingKeys(cfg);
      states, installed := NewStates();
      routes6 := NothingOwned(cfg).r6;
      AllFresh();
    }

    method InitStates()
      requires queue == Events(trace)
      modifies this`states, this`installed, this`routes6, this`trace
      ensures Separate() && fresh(states.Values) && queue == Events(trace)
      ensures HealthVal() == (map s | s in Names(cfg) :: Health(FRESH, FRESH))
      ensures installed == NothingOwned(cfg).sh && routes6 == NothingOwned(cfg).r6
      ensures trace == old(trace) + [Init(cfg.recoveryThreshold)]
    {
      hide Events, Names, HealthVal, NothingOwned, Separate;
      ResetStates();
      Note(Init(cfg.recoveryThreshold));
    }

    ghost predicate Admissible(c: Config) { Accepted(c) && WellNamed(c) && Free(c, base) }

    /** The global rules and the accept rules, on a kernel without any of the daemon's. */
    method SetupRules()
      requires Valid() && !ipv4RulesInstalled && !ipv6RuleInstalled && installed == NothingOwned(cfg).sh
      modifies kernel, this`installed, this`ipv4RulesInstalled, this`ipv6RuleInstalled
      ensures Valid()
      ensures OwnVal() == SetupFwd(cfg, old(OwnVal()).(on4 := true, on6 := true), |cfg.uplinks|)
    {
      hide Valid, Names, SetupFwd;
      SetupIpv4Rules();
      SetupIpv6Rules();
      SetupIpv6MacvlanRules();
    }

    method InitAndSetup()
      requires Admissible(cfg) && kernel.Val() == base && !ipv4RulesInstalled && !ipv6RuleInstalled && queue == Events(trace)
      modifies kernel, this`states, this`installed, this`routes6, this`trace, this`ipv4RulesInstalled, this`ipv6RuleInstalled
      ensures Valid() && fresh(states.Values)
      ensures CoreVal() == Setup(cfg, old(trace))
    {
      hide Valid, Admissible, Events, Names, SetupFwd, HealthVal;
      InitStates();
      StartsValid();
      ghost var hs := HealthVal();
      SetupRules();
      assert HealthVal() == hs;
    }

    lemma StartsValid()
      requires Admissible(cfg) && kernel.Val() == base && !ipv4RulesInstalled && !ipv6RuleInstalled && queue == Events(trace)
      requires Separate() && installed == NothingOwned(cfg).sh && routes6 == NothingOwned(cfg).r6
      ensures Valid()
    {
      hide Accepted, Agrees, WellNamed, Events, Free, Names;
      NothingIsBase(kernel.Val(), cfg, base);
    }

    /** Fresh states, rules set up, and the first pass. */
    method FreshPass(newCfg: Config, files: Snapshot)
      requires Admissible(newCfg) && kernel.Val() == base && !ipv4RulesInstalled && !ipv6RuleInstalled && queue == Events(trace)
      modifies kernel, this`cfg, this`regenerated, this`states, this`installed, this`routes6, this`trace, this`queue,
               this`ipv4RulesInstalled, this`ipv6RuleInstalled
      ensures Valid() && fresh(states.Values) && cfg == newCfg && !regenerated
      ensures CoreVal() == Reconcile.ReconcileAll(cfg, Setup(cfg, old(trace)), files, |cfg.uplinks|)
    {
      hide Valid, Admissible, Events, Setup, Reconcile.ReconcileAll, CoreVal;
      cfg := newCfg;
      regenerated := false;
      InitAndSetup();
      ReconcileAll(files);
    }

    method BeginRun(newCfg: Config, files: Snapshot)
      requires Admissible(newCfg) && kernel.Val() == base && !ipv4RulesInstalled && !ipv6RuleInstalled && queue == Events(trace)
      modifies this, kernel
      ensures Valid() && fresh(states.Values)
      ensures Val() == Begin(old(Val()), newCfg, files)
    {
      hide Valid, Admissible, Events, Setup, Reconcile.ReconcileAll, UpdatePrimaries, HealthVal, OwnVal;
      FreshPass(newCfg, files);
      UpdatePrimaryUplinks();
    }

    method FireOther(e: Event)
      requires Valid()
      modifies this`queue, this`trace
      ensures Valid() && Val() == FireEvent(old(Val()), e)
    {
      hide Valid, HealthVal;
      FireOne(e);
    }

    /** `run` up to the loop. */
    method Start(newCfg: Config, files: Snapshot)
      requires Admissible(newCfg) && kernel.Val() == base && queue == Events(trace)
      requires Val() == Unstarted(cfg, radvd.conf, radvd.signals)
      modifies this, kernel
      ensures Valid() && fresh(states.Values)
      ensures Val() == DaemonSpec.Start(newCfg, old(radvd.conf), old(radvd.signals), files)
      ensures Boundary(Val())
    {
      hide Valid, Accepted, WellNamed, Free, Begin, Boundary;
      BeginForgets(old(Val()), old(Val()).(cfg := newCfg), newCfg, files);
      BeginRun(newCfg, files);
      FireOther(DaemonStart);
      StartBoundary(newCfg, old(radvd.conf), old(radvd.signals), files);
    }

    lemma Queued()
      requires Valid()
      ensures queue == Events(trace)
    {
    }

    /** States were just reset to UP: they are to be checked at once. */
    method ProbeNow()
      requires Valid()
      modifies this`lastProbe, this`beats
      ensures Valid() && Val() == old(Val()).(lastProbe := None, beats := old(beats) + [ReloadDone])
    {
      hide Valid;
      lastProbe := None;
      beats := beats + [ReloadDone];
    }

    /** What a reload does once everything is taken down. */
    method Restart(newCfg: Config, files: Snapshot)
      requires Admissible(newCfg) && kernel.Val() == base && !ipv4RulesInstalled && !ipv6RuleInstalled && queue == Events(trace)
      modifies this, kernel
      ensures Valid() && fresh(states.Values)
      ensures Val() == Reloading(old(Val()), newCfg, files)
    {
      hide Valid, Admissible, Begin, Events;
      BeginKeepsBeats(old(Val()), newCfg, files);
      BeginRun(newCfg, files);
      ProbeNow();
      FireOther(Reloaded);
    }

    /** A reload once the new configuration was accepted. */
    method Replace(newCfg: Config, files: Snapshot)
      requires Valid() && RecordOk(cfg, CoreVal()) && Admissible(newCfg)
      modifies this, kernel
      ensures Valid() && fresh(states.Values)
      ensures Val() == Reloading(old(Val()), newCfg, files)
    {
      hide Valid, Admissible, Reloading, RecordOk, NothingOwned;
      ghost var d := Val();
      Queued();
      TeardownAll();
      ReloadingForgets(d, Val(), newCfg, files);
      Restart(newCfg, files);
    }

    method DoReload(loaded: Option<Config>, files: Snapshot)
      requires Valid() && Boundary(Val())
      requires loaded.Some? ==> Admissible(loaded.value)
      modifies this, kernel
      ensures Valid() && fresh(states.Values - old(states.Values))
      ensures Val() == DaemonSpec.DoReload(old(Val()), loaded, files)
    {
      hide Valid, Admissible, Reloading, TiersCurrent, PrimariesOk, RecordOk, LinksOk, AllSettled, NothingOwned;
      reloadRequested := false;
      if loaded.Some? {
        Replace(loaded.value, files);
      }
    }

    // -------------------------------------------------------------- radvd

    lemma RadvdReady()
      requires Valid()
      ensures Accepted(cfg) && WellNamed(cfg) && forall u :: 0 <= u < |cfg.uplinks| ==> cfg.uplinks[u].name in states
    {
      hide Accepted, Agrees, Flagged6, Free, Events, WellNamed;
    }

    method RegenerateAll(files: Snapshot, action: RadvdAction)
      requires Valid()
      modifies radvd, this`regenerated
      ensures Valid() && Val() == Regenerate(old(Val()), files, action)
    {
      hide Valid, Accepted, WellNamed, Regenerated, Signalled;
      RadvdReady();
      radvd.RegenerateAll(cfg, states, files, action, HealthVal());
      regenerated := true;
    }

    method Stamp(now: real, ghost beat: Beat)
      requires Valid()
      modifies this`lastRadvdSighup, this`beats
      ensures Valid() && Val() == old(Val()).(lastSighup := now, beats := old(beats) + [beat])
    {
      hide Valid;
      lastRadvdSighup := now;
      beats := beats + [beat];
    }

    method DoRadvdSighup(files: Snapshot, now: real)
      requires Valid()
      modifies radvd, this`regenerated, this`radvdSighupRequested, this`lastRadvdSighup, this`beats
      ensures Valid() && Val() == DoUsr2(old(Val()), files, now)
    {
      hide Valid, Regenerated, Signalled;
      radvdSighupRequested := false;
      RegenerateAll(files, Sighup);
      Stamp(now, Usr2Hup(now, AllUnits(cfg)));
    }

    method LeastGwRemaining(files: Snapshot) returns (minVal: Option<int>)
      ensures minVal == MinGwRemaining(cfg, files, |cfg.uplinks|)
    {
      minVal := None;
      for i := 0 to |cfg.uplinks|
        invariant minVal == MinGwRemaining(cfg, files, i)
      {
        var uplink := cfg.uplinks[i];
        if !uplink.ipv6Pd && !uplink.iaNa {
          continue;
        }
        var l := Read(files, uplink.name);
        if l.ra.None? || l.ra.value.lifetime == 0 {
          continue;
        }
        var remaining := l.ra.value.Remaining(l.now);
        if minVal.None? || remaining < minVal.value {
          minVal := Some(remaining);
        }
      }
    }

    /** The second half of `_do_reconcile`: rewrite the files, and signal radvd unless it was signalled lately. */
    method RefreshRadvd(gwFiles: Snapshot, files: Snapshot, now: real)
      requires Valid()
      modifies radvd, this`regenerated, this`lastRadvdSighup, this`beats
      ensures Valid() && Val() == Refreshed(old(Val()), gwFiles, files, now)
    {
      hide Valid, Regenerated, Signalled, MinGwRemaining;
      var minInterval, elapsed := cfg.radvdMinInterval, now - lastRadvdSighup;
      var minRemaining := LeastGwRemaining(gwFiles);
      if elapsed >= minInterval as real || (minRemaining.Some? && minRemaining.value <= minInterval) {
        RegenerateAll(files, Sighup);
        Stamp(now, Usr1Hup(now, !(elapsed >= minInterval as real), minInterval, AllUnits(cfg)));
      } else {
        RegenerateAll(files, Write);
      }
    }

    method ReconcileStates(files: Snapshot)
      requires Valid()
      modifies kernel, this`installed, this`routes6, this`queue, this`trace, this`primaryIpv4, this`primaryIpv6,
               this`reconcileRequested, states.Values
      ensures Valid() && Val() == Reconciled(old(Val()), files)
    {
      hide Valid, Reconcile.ReconcileAll, UpdatePrimaries, HealthVal, OwnVal;
      reconcileRequested := false;
      ReconcileAll(files);
      UpdatePrimaryUplinks();
    }

    method DoReconcile(t: Turn)
      requires Valid()
      modifies this, kernel, radvd, states.Values
      ensures Valid() && states == old(states) && Val() == DaemonSpec.DoReconcile(old(Val()), t)
    {
      hide Valid, Reconciled, Refreshed;
      ReconcileStates(t.usr1Files);
      RefreshRadvd(t.gwFiles, t.usr1RadvdFiles, t.usr1Time);
    }

    ghost method NoteFlip()
      requires Valid()
      modifies this`beats
      ensures Valid() && Val() == old(Val()).(beats := old(beats) + [FlipHup(AllUnits(cfg))])
    {
      hide Valid;
      beats := beats + [FlipHup(AllUnits(cfg))];
    }

    /** The cycle up to the radvd files. */
    method ProbeAll(t: Turn)
      requires Valid()
      modifies this, kernel, radvd, states.Values
      ensures Valid() && states == old(states) && Val() == Monitored(old(Val()), t)
    {
      hide Valid, Cycle, AnyIpv6Change, Regenerate, HealthVal, OwnVal;
      var anyIpv6Change := RunCycleUplinks(t.probes, t.cycleFiles);
      if anyIpv6Change {
        RegenerateAll(t.cycleRadvdFiles, Sighup);
        NoteFlip();
      }
    }

    method RunCycle(t: Turn)
      requires Valid()
      modifies this, kernel, radvd, states.Values
      ensures Valid() && states == old(states) && Val() == DaemonSpec.RunCycle(old(Val()), t)
    {
      hide Valid, Monitored, UpdatePrimaries, HealthVal, OwnVal;
      ProbeAll(t);
      UpdatePrimaryUplinks();
    }

    // -------------------------------------------------------------- the loop

    method HandleTerm()
      requires Valid()
      modifies this`running
      ensures Valid() && Val() == old(Val()).(running := false)
    {
      hide Valid;
      running := false;
    }

    method HandleHup()
      requires Valid()
      modifies this`reloadRequested
      ensures Valid() && Val() == old(Val()).(reload := true)
    {
      hide Valid;
      reloadRequested := true;
    }

    method HandleUsr1()
      requires Valid()
      modifies this`reconcileRequested
      ensures Valid() && Val() == old(Val()).(reconcile := true)
    {
      hide Valid;
      reconcileRequested := true;
    }

    method HandleUsr2()
      requires Valid()
      modifies this`radvdSighupRequested
      ensures Valid() && Val() == old(Val()).(sighup := true)
    {
      hide Valid;
      radvdSighupRequested := true;
    }

    /** The signals that arrive at one of the points between two actions. */
    method Handle(sig: Signals)
      requires Valid()
      modifies this`reloadRequested, this`reconcileRequested, this`radvdSighupRequested, this`running
      ensures Valid() && Val() == Deliver(old(Val()), sig)
    {
      hide Valid, CoreVal;
      if sig.hup {
        HandleHup();
      }
      if sig.usr1 {
        HandleUsr1();
      }
      if sig.usr2 {
        HandleUsr2();
      }
      if sig.term {
        HandleTerm();
      }
    }

    /** While the daemon sleeps, routes that carry an expiry may vanish; the daemon does not notice. */
    method Sleep(gone: set<string>)
      requires Valid()
      modifies kernel, this`routes6
      ensures Valid() && OwnVal() == ExpireOwned(old(OwnVal()), gone)
    {
      hide Accepted, Agrees, WellNamed, Events, Names, Free, Flagged6;
      ghost var k, o := kernel.Val(), OwnVal();
      kernel.Expire(Keys6(cfg, gone));
      ExpireRoutes(k, cfg, o, base, gone, kernel.Val());
      FlagsExpire(cfg, o, gone);
      routes6 := ExpireOwned(o, gone).r6;
    }

    method MaybeDoReload(t: Turn)
      requires Valid() && Boundary(Val()) && (t.loaded.Some? ==> Admissible(t.loaded.value))
      modifies this, kernel
      ensures Valid() && fresh(states.Values - old(states.Values))
      ensures Val() == MaybeReload(old(Val()), t)
    {
      hide Valid, Boundary, Admissible, DaemonSpec.DoReload;
      if reloadRequested {
        DoReload(t.loaded, t.reloadFiles);
      }
    }

    method MaybeRunCycle(t: Turn)
      requires Valid()
      modifies this, kernel, radvd, states.Values
      ensures Valid() && states == old(states) && Val() == MaybeCycle(old(Val()), t)
    {
      hide Valid, DaemonSpec.RunCycle;
      if lastProbe.None? || t.cycleTime - lastProbe.value >= cfg.interval as real {
        lastProbe := Some(t.cycleTime);
        beats := beats + [CycleStart(t.cycleTime, cfg.interval)];
        RunCycle(t);
      }
    }

    /** The rest of a turn, once a reload was dealt with. */
    method AfterReload(t: Turn)
      requires Valid()
      modifies this, kernel, radvd, states.Values
      ensures Valid() && states == old(states)
      ensures var d2 := Deliver(MaybeUsr2(Deliver(old(Val()), t.signals1), t), t.signals2);
              Val() == Deliver(MaybeCycle(MaybeReconcile(d2, t), t), t.signals3)
    {
      hide Valid, MaybeCycle, DaemonSpec.DoReconcile, DoUsr2;
      Handle(t.signals1);
      if radvdSighupRequested {
        DoRadvdSighup(t.usr2Files, t.usr2Time);
      }
      Handle(t.signals2);
      if reconcileRequested {
        DoReconcile(t);
      }
      MaybeRunCycle(t);
      Handle(t.signals3);
    }

    /** One iteration of `_loop`. */
    method LoopOnce(t: Turn)
      requires Valid() && Boundary(Val()) && (t.loaded.Some? ==> Admissible(t.loaded.value))
      modifies this, kernel, radvd, states.Values
      ensures Valid() && fresh(states.Values - old(states.Values))
      ensures Val() == TurnOnce(old(Val()), t) && Boundary(Val())
    {
      hide Valid, Boundary, Admissible, MaybeCycle, MaybeReload, MaybeUsr2, MaybeReconcile, Accepted, HealthVal;
      MayLoad(t);
      TurnKeeps(Val(), t);
      WakeKeeps(Val(), t);
      Sleep(t.gone);
      Handle(t.signals0);
      MaybeDoReload(t);
      AfterReload(t);
    }

    lemma MayLoad(t: Turn)
      requires t.loaded.Some? ==> Admissible(t.loaded.value)
      ensures TurnOk(t)
    {
      hide Accepted;
    }

    /** Every run refines its specification, and at every boundary the kernel is exactly what the record says. */
    method Loop(script: seq<Turn>)
      requires Valid() && Boundary(Val())
      requires forall i :: 0 <= i < |script| && script[i].loaded.Some? ==> Admissible(script[i].loaded.value)
      modifies this, kernel, radvd, states.Values
      ensures Valid() && fresh(states.Values - old(states.Values))
      ensures Val() == DaemonSpec.Loop(old(Val()), script) && Boundary(Val())
    {
      hide Valid, Boundary, Admissible, TurnOnce;
      var i := 0;
      while i < |script| && running
        invariant i <= |script|
        invariant Valid() && fresh(states.Values - old(states.Values))
        invariant Val() == DaemonSpec.Loop(old(Val()), script[..i]) && Boundary(Val())
      {
        assert script[..i + 1][..i] == script[..i];
        LoopOnce(script[i]);
        i := i + 1;
      }
      StaysStopped(old(Val()), script, i);
      assert script[..|script|] == script;
    }

    /** radvd is left advertising as if all uplinks were UP. */
    method AdvertiseAllUp(files: Snapshot)
      requires Valid()
      modifies radvd
      ensures Valid()
      ensures var all := map s | s in Names(cfg) :: Health(FRESH, FRESH);
              Val() == old(Val()).(conf := Regenerated(cfg, all, files, old(radvd.conf), |cfg.uplinks|),
                                   signals := old(radvd.signals) + Signalled(cfg, Sighup, |cfg.uplinks|))
    {
      hide Valid, Accepted, WellNamed, Regenerated, Signalled;
      RadvdReady();
      var allUp, _ := NewStates();
      radvd.RegenerateAll(cfg, allUp, files, Sighup, map s | s in Names(cfg) :: Health(FRESH, FRESH));
    }

    /** `_cleanup`: the kernel is as it was before the daemon started. */
    method Cleanup(files: Snapshot)
      requires Valid() && Boundary(Val())
      modifies this, kernel, radvd
      ensures kernel.Val() == base && queue == Events(trace)
      ensures Val() == DaemonSpec.Cleanup(old(Val()), files)
    {
      hide Valid, Boundary, Regenerated, Signalled, NothingOwned, Names, Events;
      BoundaryRecord();
      TeardownAll();
      AdvertiseAllUp(files);
      FireOther(DaemonStop);
      Queued();
    }

    lemma BoundaryRecord()
      requires Boundary(Val())
      ensures RecordOk(cfg, CoreVal())
    {
      hide RecordOk;
    }

    /** A whole life of the daemon, started on any kernel whose block and tables are free: it leaves the kernel as it found it. */
    method Run(newCfg: Config, files: Snapshot, script: seq<Turn>, endFiles: Snapshot)
      requires Admissible(newCfg) && kernel.Val() == base && queue == Events(trace)
      requires Val() == Unstarted(cfg, radvd.conf, radvd.signals)
      requires forall i :: 0 <= i < |script| && script[i].loaded.Some? ==> Admissible(script[i].loaded.value)
      modifies this, kernel, radvd
      ensures kernel.Val() == old(kernel.Val())
      ensures var started := DaemonSpec.Start(newCfg, old(radvd.conf), old(radvd.signals), files);
              Val() == DaemonSpec.Cleanup(DaemonSpec.Loop(started, script), endFiles)
      ensures queue == Events(trace)
    {
      hide Valid, Boundary, Admissible, DaemonSpec.Start, DaemonSpec.Cleanup, Unstarted, Events;
      Start(newCfg, files);
      Loop(script);
      Cleanup(endFiles);
    }
  }
}
