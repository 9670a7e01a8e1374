/**
 * Where packets go once a reconcile pass is over, told from what the pass read: lease addresses, delegations,
 * advertisements and link states, with no reference to the daemon's record or to the rules it stands for.
 */
module Paths {
  import opened Wrappers
  import opened Configuration
  import opened Naming
  import opened StateMachine
  import opened Routing
  import opened Shadow
  import opened State
  import opened Trace
  import opened Radvd
  import opened Reconcile
  import opened Invariants
  import opened DaemonSpec
  import opened Convergence
  import opened Policy

  /** A kernel that agrees with the record after a pass over `files`. */
  ghost predicate Passing(k: Tables, cfg: Config, before: Core, files: Snapshot, base: Tables) {
    && Accepted(cfg) && RecordOk(cfg, before)
    && Agrees(k, cfg, Reconcile.ReconcileAll(cfg, before, files, |cfg.uplinks|).own, base)
  }

  /** What uplink `u` had on file. */
  function LeasesOf(cfg: Config, files: Snapshot, u: nat): Leases
    requires u < |cfg.uplinks|
  {
    Read(files, cfg.uplinks[u].name)
  }

  /** The route an advertisement stands for: through the uplink's interface, for as long as it still lasts. */
  function Advertised(up: Uplink, ra: RaState, now: int): Route {
    Route(ra.gateway, up.iface, if ra.lifetime == 0 then None else Some(NonNegative(ra.lifetime - (now - ra.timestamp))))
  }

  // ---------------------------------------------------------------- links and delegations

  /** A family without any record is DOWN with its counters cleared; otherwise the pass leaves the health alone. */
  lemma {:induction false} HealthAfterPass(cfg: Config, before: Core, files: Snapshot, u: nat)
    requires Accepted(cfg) && RecordOk(cfg, before) && u < |cfg.uplinks|
    ensures var h, l := HealthAt(cfg, before, u), LeasesOf(cfg, files, u);
            var h' := HealthAt(cfg, Reconcile.ReconcileAll(cfg, before, files, |cfg.uplinks|), u);
            && h'.v4 == (if l.v4.None? && h.v4.state == Up then Link(Down, 0, 0) else h.v4)
            && h'.v6 == (if (cfg.uplinks[u].ipv6Pd || cfg.uplinks[u].iaNa) && l.ra.None? && l.pd.None? && l.na.None?
                            && h.v6.state == Up then Link(Down, 0, 0) else h.v6)
  {
    hide Accepted, RecordOk, Reconcile.ReconcileAll, LastPd, Declared, DeclaredRoute6, PdAfter;
    AllConverge(cfg, before, files, |cfg.uplinks|);
    assert Converged(cfg, before, Reconcile.ReconcileAll(cfg, before, files, |cfg.uplinks|), files, u, |cfg.uplinks|);
  }

  /** A pass remembers the delegation it read, with its full length, and otherwise the one before. */
  lemma {:induction false} DelegationRemembered(cfg: Config, before: Core, files: Snapshot, u: nat)
    requires Accepted(cfg) && RecordOk(cfg, before) && u < |cfg.uplinks|
    ensures var pd := LeasesOf(cfg, files, u).pd;
            LastPd(Reconcile.ReconcileAll(cfg, before, files, |cfg.uplinks|).trace, cfg.uplinks[u].name) ==
            if (cfg.uplinks[u].ipv6Pd || cfg.uplinks[u].iaNa) && pd.Some? then Some(Prefix(pd.value.prefix, pd.value.length))
            else LastPd(before.trace, cfg.uplinks[u].name)
  {
    hide Accepted, RecordOk, Reconcile.ReconcileAll, LastPd, Declared, DeclaredRoute6, Passed;
    AllConverge(cfg, before, files, |cfg.uplinks|);
    assert Converged(cfg, before, Reconcile.ReconcileAll(cfg, before, files, |cfg.uplinks|), files, u, |cfg.uplinks|);
  }

  // ---------------------------------------------------------------- forwarded IPv6

  /** The source is admitted: with source checking it must lie in the delegation on file, or in the last one. */
  predicate Admits(cfg: Config, before: Core, l: Leases, u: nat, pkt: Packet)
    requires u < |cfg.uplinks|
  {
    cfg.rejectWrongPdSrc ==>
      match l.pd
      case Some(pd) => pkt.In(pd.prefix, pd.length)
      case None =>
        match LastPd(before.trace, cfg.uplinks[u].name)
        case Some(p) => pkt.In(p.addr, p.len)
        case None => true
  }

  /** Every packet from a PD macvlan: the delegation constrains its source, an advertisement gives the route, and what is
      not routed is prohibited iff there is a delegation. */
  lemma VerdictAfterPass(k: Tables, cfg: Config, before: Core, files: Snapshot, base: Tables, u: nat, n: nat, pkt: Packet)
    requires Passing(k, cfg, before, files, base) && WellNamed(cfg)
    requires u < |cfg.uplinks| && cfg.uplinks[u].ipv6Pd && n < |cfg.networks| && pkt.iif == Mv(cfg, u, n) && pkt.main.None?
    ensures var l := LeasesOf(cfg, files, u);
            Verdict6(k, cfg, pkt) ==
            if Admits(cfg, before, l, u, pkt) && l.ra.Some? then Via(Advertised(cfg.uplinks[u], l.ra.value, l.now))
            else if cfg.rejectWrongPdSrc && l.pd.Some? then Refused
            else Undecided
  {
    hide Accepted, Agrees, Mv, WellNamed, Verdict6, LastPd, RecordOk, Reconcile.ReconcileAll, FwdOf, LoSource6;
    var c, l := Reconcile.ReconcileAll(cfg, before, files, |cfg.uplinks|), LeasesOf(cfg, files, u);
    AllConverge(cfg, before, files, |cfg.uplinks|);
    assert Converged(cfg, before, c, files, u, |cfg.uplinks|);
    SourcePath(k, cfg, c, base, u, n, pkt);
    assert Mv(cfg, u, n) in AllMvs(cfg, u);
  }

  /** With `reject_wrong_pd_src` and a delegation on file: prohibited iff the source lies outside the delegated range or
      there is no advertisement, routed by the uplink otherwise. */
  lemma WrongSourceRejected(k: Tables, cfg: Config, before: Core, files: Snapshot, base: Tables, u: nat, n: nat, pkt: Packet,
                            pd: PdState, net: nat)
    requires Passing(k, cfg, before, files, base) && WellNamed(cfg)
    requires u < |cfg.uplinks| && cfg.uplinks[u].ipv6Pd && n < |cfg.networks| && pkt.iif == Mv(cfg, u, n) && pkt.main.None?
    requires cfg.rejectWrongPdSrc && LeasesOf(cfg, files, u).pd == Some(pd)
    requires Network6(pkt.number(pd.prefix), pd.length) == Some(net)
    ensures var ra := LeasesOf(cfg, files, u).ra;
            && (Verdict6(k, cfg, pkt) == Refused <==>
                ra.None? || !(net <= pkt.src < net + Pow2(ADDRESS_BITS - pd.length)))
            && (Verdict6(k, cfg, pkt) != Refused ==>
                  Verdict6(k, cfg, pkt).Via? && Verdict6(k, cfg, pkt).route.gateway == ra.value.gateway
                  && Verdict6(k, cfg, pkt).route.dev == cfg.uplinks[u].iface)
  {
    hide Accepted, Agrees, Mv, WellNamed, Verdict6, LastPd, RecordOk, Reconcile.ReconcileAll, Pow2, AlignDown;
    VerdictAfterPass(k, cfg, before, files, base, u, n, pkt);
  }

  /** Block `m` of the uplink's radvd file advertises a /64 that holds `address`. */
  predicate Offers(conf: Confs, name: string, m: nat, address: nat) {
    && name in conf && m < |conf[name]| && conf[name][m].prefix.Some?
    && conf[name][m].prefix.value <= address < conf[name][m].prefix.value + SUBNET_SIZE
  }

  /**
   * radvd and the rules agree: once the files were regenerated from the delegation that the pass read, every address of
   * a prefix they advertise on one of the uplink's networks is routed by that uplink, from whichever of its networks
   * it is used, as long as there is an advertisement.
   */
  lemma {:induction false} AdvertisedIsRouted(k: Tables, cfg: Config, before: Core, files: Snapshot, base: Tables,
                                              u: nat, n: nat, pkt: Packet, hs: Healths, radvdFiles: Snapshot, conf: Confs, m: nat)
    requires Passing(k, cfg, before, files, base) && WellNamed(cfg)
    requires u < |cfg.uplinks| && cfg.uplinks[u].ipv6Pd && n < |cfg.networks| && pkt.iif == Mv(cfg, u, n) && pkt.main.None?
    requires var l, r := LeasesOf(cfg, files, u), LeasesOf(cfg, radvdFiles, u);
             l.ra.Some? && l.pd.Some? && r.pd == l.pd && r.pdAddress == pkt.number(l.pd.value.prefix)
    requires Offers(Regenerated(cfg, hs, radvdFiles, conf, |cfg.uplinks|), cfg.uplinks[u].name, m, pkt.src)
    ensures var l := LeasesOf(cfg, files, u); Verdict6(k, cfg, pkt) == Via(Advertised(cfg.uplinks[u], l.ra.value, l.now))
  {
    hide Accepted, Agrees, Mv, WellNamed, Verdict6, LastPd, RecordOk, Reconcile.ReconcileAll, Regenerated;
    hide Pow2, AlignDown, DerivedPrefixes, GoodSubnets, Derivable, PreferenceFor;
    var pd := LeasesOf(cfg, files, u).pd.value;
    VerdictAfterPass(k, cfg, before, files, base, u, n, pkt);
    RegeneratedAt(cfg, hs, radvdFiles, conf, |cfg.uplinks|, u);
    AdvertisedWithin(cfg, u, pkt.number(pd.prefix), pd, Mv(cfg, u, m));
  }

  /** A derived subnet lies in the delegated range. */
  lemma AdvertisedWithin(cfg: Config, u: nat, addr: Option<nat>, pd: PdState, mv: string)
    requires |cfg.networks| > 0 && mv in DerivedPrefixes(cfg, u, addr, Some(pd))
    ensures Network6(addr, pd.length).Some?
    ensures var net, p := Network6(addr, pd.length).value, DerivedPrefixes(cfg, u, addr, Some(pd))[mv];
            net <= p && p + SUBNET_SIZE <= net + Pow2(ADDRESS_BITS - pd.length)
  {
    hide Pow2, AlignDown, MacvlanName;
    PrefixesAllOrNothing(cfg, u, addr, Some(pd));
  }

  // ---------------------------------------------------------------- the router's own IPv6 packets

  /** An uplink that is UP claims its managed address, else the advertised prefix, else the advertised address; and
      (`pd`) its delegation. */
  predicate Claims6(cfg: Config, c: Core, files: Snapshot, pd: bool, u: nat, pkt: Packet)
    requires u < |cfg.uplinks|
  {
    var l := LeasesOf(cfg, files, u);
    && (cfg.uplinks[u].ipv6Pd || cfg.uplinks[u].iaNa) && HealthAt(cfg, c, u).v6.state == Up
    && if pd then l.pd.Some? && pkt.In(l.pd.value.prefix, l.pd.value.length)
       else if l.na.Some? then pkt.Is(l.na.value.address)
       else l.ra.Some? && if l.ra.value.prefix != "" then pkt.In(l.ra.value.prefix, l.ra.value.plen)
                          else l.ra.value.address != "" && pkt.Is(l.ra.value.address)
  }

  /** The first uplink that claims the source and has an advertisement. */
  predicate FirstClaim6(cfg: Config, c: Core, files: Snapshot, pd: bool, u: nat, pkt: Packet)
    requires u < |cfg.uplinks|
  {
    && Claims6(cfg, c, files, pd, u, pkt) && LeasesOf(cfg, files, u).ra.Some?
    && forall v :: 0 <= v < u ==> !(Claims6(cfg, c, files, pd, v, pkt) && LeasesOf(cfg, files, v).ra.Some?)
  }

  /** /128 is one address. */
  lemma HostPrefix(pkt: Packet, addr: string)
    ensures pkt.In(addr, ADDRESS_BITS) <==> pkt.Is(addr)
  {
    assert Pow2(0) == 1;
    assert forall n: nat :: AlignDown(n, 1) == n;
  }

  lemma {:induction false} ClaimIsCover(cfg: Config, before: Core, files: Snapshot, pd: bool, u: nat, pkt: Packet)
    requires Accepted(cfg) && RecordOk(cfg, before) && u < |cfg.uplinks|
    ensures var c := Reconcile.ReconcileAll(cfg, before, files, |cfg.uplinks|);
            && (Covers(cfg, c.own, pd, u, pkt) <==> Claims6(cfg, c, files, pd, u, pkt))
            && (Claims6(cfg, c, files, pd, u, pkt) ==>
                  var l := LeasesOf(cfg, files, u);
                  Route6At(cfg, c.own, u) == if l.ra.Some? then Some(Advertised(cfg.uplinks[u], l.ra.value, l.now)) else None)
  {
    hide Accepted, LastPd, RecordOk, Reconcile.ReconcileAll, FwdOf, AllMvs, Passed, Packet.In, Packet.Is;
    var c, l := Reconcile.ReconcileAll(cfg, before, files, |cfg.uplinks|), LeasesOf(cfg, files, u);
    AllConverge(cfg, before, files, |cfg.uplinks|);
    assert Converged(cfg, before, c, files, u, |cfg.uplinks|);
    if l.na.Some? {
      HostPrefix(pkt, l.na.value.address);
    }
    if l.ra.Some? {
      HostPrefix(pkt, l.ra.value.address);
    }
  }

  /** From uplink `from` on. */
  lemma {:induction false} WalkFrom(cfg: Config, before: Core, files: Snapshot, pd: bool, from: nat, pkt: Packet)
    requires Accepted(cfg) && RecordOk(cfg, before) && from <= |cfg.uplinks|
    ensures var c := Reconcile.ReconcileAll(cfg, before, files, |cfg.uplinks|);
            var walk := FirstCovering(cfg, c.own, pd, from, pkt);
            && (walk == Undecided <==>
                forall u :: from <= u < |cfg.uplinks| ==> !(Claims6(cfg, c, files, pd, u, pkt) && LeasesOf(cfg, files, u).ra.Some?))
            && (forall u :: from <= u < |cfg.uplinks| && Claims6(cfg, c, files, pd, u, pkt) && LeasesOf(cfg, files, u).ra.Some?
                            && (forall v :: from <= v < u ==>
                                  !(Claims6(cfg, c, files, pd, v, pkt) && LeasesOf(cfg, files, v).ra.Some?)) ==>
                  walk == Via(Advertised(cfg.uplinks[u], LeasesOf(cfg, files, u).ra.value, LeasesOf(cfg, files, u).now)))
    decreases |cfg.uplinks| - from
  {
    hide Accepted, RecordOk, Reconcile.ReconcileAll, Claims6, Covers, Advertised, Route6At;
    if from < |cfg.uplinks| {
      WalkFrom(cfg, before, files, pd, from + 1, pkt);
      ClaimIsCover(cfg, before, files, pd, from, pkt);
    }
  }

  /** A packet of the router itself goes by the first uplink that claims its source by address, else by the first that
      claims it by delegation; it falls through the block iff none does. */
  lemma {:induction false} OwnPath6(k: Tables, cfg: Config, before: Core, files: Snapshot, base: Tables, pkt: Packet)
    requires Passing(k, cfg, before, files, base) && pkt.iif == LOOPBACK && pkt.main.None?
    ensures var c := Reconcile.ReconcileAll(cfg, before, files, |cfg.uplinks|);
            && (forall u :: 0 <= u < |cfg.uplinks| && FirstClaim6(cfg, c, files, false, u, pkt) ==>
                  Verdict6(k, cfg, pkt) ==
                  Via(Advertised(cfg.uplinks[u], LeasesOf(cfg, files, u).ra.value, LeasesOf(cfg, files, u).now)))
            && ((forall u :: 0 <= u < |cfg.uplinks| ==> !FirstClaim6(cfg, c, files, false, u, pkt)) ==>
                  forall u :: 0 <= u < |cfg.uplinks| && FirstClaim6(cfg, c, files, true, u, pkt) ==>
                    Verdict6(k, cfg, pkt) ==
                    Via(Advertised(cfg.uplinks[u], LeasesOf(cfg, files, u).ra.value, LeasesOf(cfg, files, u).now)))
            && (Verdict6(k, cfg, pkt) == Undecided <==>
                forall u, pd :: 0 <= u < |cfg.uplinks| ==> !FirstClaim6(cfg, c, files, pd, u, pkt))
  {
    hide Accepted, RecordOk, Agrees, Reconcile.ReconcileAll, FirstCovering, Claims6, Advertised, Verdict6;
    var c := Reconcile.ReconcileAll(cfg, before, files, |cfg.uplinks|);
    AllConverge(cfg, before, files, |cfg.uplinks|);
    OwnPath(k, cfg, c, base, pkt);
    WalkFrom(cfg, before, files, false, 0, pkt);
    WalkFrom(cfg, before, files, true, 0, pkt);
    SomeFirst(cfg, c, files, false, pkt);
    SomeFirst(cfg, c, files, true, pkt);
  }

  lemma {:induction false} FirstBelow(cfg: Config, c: Core, files: Snapshot, pd: bool, u: nat, pkt: Packet)
    requires u < |cfg.uplinks| && Claims6(cfg, c, files, pd, u, pkt) && LeasesOf(cfg, files, u).ra.Some?
    ensures exists v :: 0 <= v <= u && FirstClaim6(cfg, c, files, pd, v, pkt)
  {
    hide Claims6;
    if !FirstClaim6(cfg, c, files, pd, u, pkt) {
      var v :| 0 <= v < u && Claims6(cfg, c, files, pd, v, pkt) && LeasesOf(cfg, files, v).ra.Some?;
      FirstBelow(cfg, c, files, pd, v, pkt);
    }
  }

  lemma SomeFirst(cfg: Config, c: Core, files: Snapshot, pd: bool, pkt: Packet)
    ensures (forall u :: 0 <= u < |cfg.uplinks| ==> !FirstClaim6(cfg, c, files, pd, u, pkt)) <==>
            forall u :: 0 <= u < |cfg.uplinks| ==> !(Claims6(cfg, c, files, pd, u, pkt) && LeasesOf(cfg, files, u).ra.Some?)
  {
    hide Claims6;
    forall u | 0 <= u < |cfg.uplinks| && Claims6(cfg, c, files, pd, u, pkt) && LeasesOf(cfg, files, u).ra.Some?
      ensures exists v :: 0 <= v < |cfg.uplinks| && FirstClaim6(cfg, c, files, pd, v, pkt)
    {
      FirstBelow(cfg, c, files, pd, u, pkt);
    }
  }

  // ---------------------------------------------------------------- IPv4

  /** The packet is the router's own, and its source is the lease address of uplink `u`, which is UP. */
  predicate Claims4(cfg: Config, c: Core, files: Snapshot, u: int, pkt: Packet) {
    && 0 <= u < |cfg.uplinks| && pkt.iif == LOOPBACK && HealthAt(cfg, c, u).v4.state == Up
    && var lease := LeasesOf(cfg, files, u).v4;
       lease.Some? && lease.value.address != "" && pkt.Is(lease.value.address)
  }

  /** The route of an IPv4 lease. */
  function LeaseRoute(cfg: Config, files: Snapshot, u: nat): Option<Route>
    requires u < |cfg.uplinks|
  {
    match LeasesOf(cfg, files, u).v4
    case Some(lease) => Some(Route(lease.gateway, cfg.uplinks[u].iface, None))
    case None => None
  }

  lemma {:induction false} LeasesAfterPass(cfg: Config, before: Core, files: Snapshot, u: nat, pkt: Packet)
    requires Accepted(cfg) && RecordOk(cfg, before) && u < |cfg.uplinks|
    ensures var c := Reconcile.ReconcileAll(cfg, before, files, |cfg.uplinks|);
            && SettledAt(cfg, c, u)
            && (Up4(cfg, c.health, u) <==> HealthAt(cfg, c, u).v4.state == Up)
            && (Owns4(cfg, c, u, pkt) <==> Claims4(cfg, c, files, u, pkt))
            && (HealthAt(cfg, c, u).v4.state == Up ==>
                  LeaseRoute(cfg, files, u).Some? && ShOf(cfg, c.own, u).gw4 == Some(LeaseRoute(cfg, files, u).value.gateway))
  {
    hide Accepted, LastPd, RecordOk, Reconcile.ReconcileAll, FwdOf, AllMvs, LoSource6, Packet.Is;
    AllConverge(cfg, before, files, |cfg.uplinks|);
    assert Converged(cfg, before, Reconcile.ReconcileAll(cfg, before, files, |cfg.uplinks|), files, u, |cfg.uplinks|);
  }

  lemma OnlyUplinksClaim(cfg: Config, c: Core, files: Snapshot, u: int, pkt: Packet)
    ensures Owns4(cfg, c, u, pkt) ==> Up4(cfg, c.health, u)
    ensures Owns4(cfg, c, u, pkt) || Claims4(cfg, c, files, u, pkt) ==> 0 <= u < |cfg.uplinks|
    ensures Best4(cfg, c.health, u) ==> Up4(cfg, c.health, u)
    ensures Up4(cfg, c.health, u) ==> 0 <= u < |cfg.uplinks|
  {
  }

  lemma {:induction false} AllAfterPass(cfg: Config, before: Core, files: Snapshot, pkt: Packet)
    requires Accepted(cfg) && RecordOk(cfg, before)
    ensures var c := Reconcile.ReconcileAll(cfg, before, files, |cfg.uplinks|);
            && AllSettled(cfg, c, |cfg.uplinks|) && c.own.on4
            && (forall u :: Owns4(cfg, c, u, pkt) <==> Claims4(cfg, c, files, u, pkt))
            && (forall u, v :: LeavesBy(cfg, c.own, u, v) && Up4(cfg, c.health, u) ==>
                  LeaseRoute(cfg, files, u).Some? && v == Via(LeaseRoute(cfg, files, u).value))
  {
    hide Accepted, Reconcile.ReconcileAll, Claims4, Owns4, SettledAt, Up4, Best4, LeaseRoute;
    var c := Reconcile.ReconcileAll(cfg, before, files, |cfg.uplinks|);
    AllConverge(cfg, before, files, |cfg.uplinks|);
    forall u ensures Owns4(cfg, c, u, pkt) <==> Claims4(cfg, c, files, u, pkt) {
      OnlyUplinksClaim(cfg, c, files, u, pkt);
      if 0 <= u < |cfg.uplinks| {
        LeasesAfterPass(cfg, before, files, u, pkt);
      }
    }
    forall u | 0 <= u < |cfg.uplinks| ensures SettledAt(cfg, c, u) {
      LeasesAfterPass(cfg, before, files, u, pkt);
    }
    forall u, v | LeavesBy(cfg, c.own, u, v) && Up4(cfg, c.health, u)
      ensures LeaseRoute(cfg, files, u).Some? && v == Via(LeaseRoute(cfg, files, u).value)
    {
      LeasesAfterPass(cfg, before, files, u, pkt);
      RouteOfLease(cfg, files, u);
    }
  }

  lemma RouteOfLease(cfg: Config, files: Snapshot, u: nat)
    requires u < |cfg.uplinks|
    ensures var r := LeaseRoute(cfg, files, u); r.Some? ==> r.value == Route(r.value.gateway, cfg.uplinks[u].iface, None)
  {
  }

  /**
   * IPv4 without a specific route: the router's own packet goes to the gateway of the first UP uplink whose lease address
   * is its source; any other packet to the gateway of the UP uplink of least metric; it falls through iff none is UP.
   */
  lemma {:induction false} Ipv4AfterPass(k: Tables, cfg: Config, before: Core, files: Snapshot, base: Tables, pkt: Packet)
    requires Passing(k, cfg, before, files, base) && pkt.main.None?
    ensures var c := Reconcile.ReconcileAll(cfg, before, files, |cfg.uplinks|);
            && (forall u :: Claims4(cfg, c, files, u, pkt) && (forall v :: 0 <= v < u ==> !Claims4(cfg, c, files, v, pkt)) ==>
                  LeaseRoute(cfg, files, u).Some? && Verdict4(k, cfg, pkt) == Via(LeaseRoute(cfg, files, u).value))
            && ((forall u :: !Claims4(cfg, c, files, u, pkt)) ==>
                  && (forall u :: Best4(cfg, c.health, u) ==>
                        LeaseRoute(cfg, files, u).Some? && Verdict4(k, cfg, pkt) == Via(LeaseRoute(cfg, files, u).value))
                  && (Verdict4(k, cfg, pkt) == Undecided <==> forall u :: !Up4(cfg, c.health, u)))
  {
    hide Accepted, Agrees, Reconcile.ReconcileAll, Verdict4, Claims4, Owns4, AllSettled, Up4, Best4, LeaseRoute, LeavesBy, RecordOk;
    var c := Reconcile.ReconcileAll(cfg, before, files, |cfg.uplinks|);
    AllAfterPass(cfg, before, files, pkt);
    Ipv4Paths(k, cfg, c, base, pkt);
    forall u | Claims4(cfg, c, files, u, pkt) || Best4(cfg, c.health, u) ensures 0 <= u < |cfg.uplinks| && Up4(cfg, c.health, u) {
      OnlyUplinksClaim(cfg, c, files, u, pkt);
    }
    SomeBest(cfg, c.health);
  }

  lemma SomeBest(cfg: Config, hs: Healths)
    ensures (exists u :: Up4(cfg, hs, u)) ==> exists u :: Best4(cfg, hs, u)
  {
    var p := PrimaryIpv4(cfg, hs);
    if p.Some? {
      assert Best4(cfg, hs, p.value);
    }
  }
}
