/**
 * What the installed rules mean for packets: the kernel walks the rules in ascending priority, and the first one that
 * matches and yields a route, or prohibits, decides. A lookup that finds nothing falls through.
 */
module Policy {
  import opened Wrappers
  import opened Configuration
  import opened Priority
  import opened Naming
  import opened Routing
  import opened Shadow
  import opened Trace
  import opened Radvd
  import opened Reconcile
  import opened Invariants
  import opened DaemonSpec
  import opened Runs
  import opened Agreement

  // ---------------------------------------------------------------- policy lookup

  /** `iif` is the interface a packet entered by (the loopback for the router's own), `src` its source address as a
      number, `number` what address a text denotes, and `main` the non-default route of the main table for its destination. */
  datatype Packet = Packet(iif: string, src: nat, number: string -> Option<nat>, main: Option<Route>) {
    /** The source is the address that the text denotes. */
    predicate Is(addr: string) { number(addr) == Some(src) }

    /** The source shares the first `length` bits with the address that the text denotes. */
    predicate In(addr: string, length: int) {
      && number(addr).Some? && 0 <= length <= ADDRESS_BITS
      && var size := Pow2(ADDRESS_BITS - length); var net := AlignDown(number(addr).value, size); net <= src < net + size
    }

    predicate From(s: Source) {
      match s
      case Anywhere => true
      case FromAddr(addr) => Is(addr)
      case FromPrefix(p) => In(p.addr, p.len)
    }
  }

  datatype Verdict = Undecided | Via(route: Route) | Refused

  predicate Matches(r: Rule, pkt: Packet) {
    (r.iif.None? || r.iif.value == pkt.iif) && pkt.From(r.source)
  }

  ghost function TableRoute(m: Routes, table: int): Option<Route> {
    if k :| Wins(m, table, k) then Some(m[k]) else None
  }

  function Found(r: Option<Route>): Verdict { if r.Some? then Via(r.value) else Undecided }

  ghost function RuleVerdict(r: Rule, m: Routes, pkt: Packet): Verdict {
    if !Matches(r, pkt) then Undecided
    else match r.action
      case MainNoDefault => Found(pkt.main)
      case Lookup(table) => Found(TableRoute(m, table))
      case Prohibit => Refused
  }

  function Then(a: Verdict, b: Verdict): Verdict { if a.Undecided? then b else a }

  ghost function SeqVerdict(rs: seq<Rule>, m: Routes, pkt: Packet): Verdict {
    if rs == [] then Undecided else Then(RuleVerdict(rs[0], m, pkt), SeqVerdict(rs[1..], m, pkt))
  }

  /** The verdict of the rules with priorities in [from, to). */
  ghost function Scan(rs: Rules, m: Routes, pkt: Packet, from: int, to: int): Verdict
    decreases to - from
  {
    if from >= to then Undecided else Then(SeqVerdict(At(rs, from), m, pkt), Scan(rs, m, pkt, from + 1, to))
  }

  lemma {:induction false} ScanSplit(rs: Rules, m: Routes, pkt: Packet, a: int, b: int, c: int)
    requires a <= b <= c
    ensures Scan(rs, m, pkt, a, c) == Then(Scan(rs, m, pkt, a, b), Scan(rs, m, pkt, b, c))
    decreases b - a
  {
    if a < b {
      ScanSplit(rs, m, pkt, a + 1, b, c);
    }
  }

  lemma {:induction false} ScanSilent(rs: Rules, m: Routes, pkt: Packet, a: int, b: int)
    requires forall p :: a <= p < b ==> SeqVerdict(At(rs, p), m, pkt) == Undecided
    ensures Scan(rs, m, pkt, a, b) == Undecided
    decreases b - a
  {
    if a < b {
      ScanSilent(rs, m, pkt, a + 1, b);
    }
  }

  /** Only priority `p` speaks in [a, b). */
  lemma {:induction false} ScanOne(rs: Rules, m: Routes, pkt: Packet, a: int, p: int, b: int)
    requires a <= p < b
    requires forall q :: a <= q < b && q != p ==> SeqVerdict(At(rs, q), m, pkt) == Undecided
    ensures Scan(rs, m, pkt, a, b) == SeqVerdict(At(rs, p), m, pkt)
  {
    ScanSplit(rs, m, pkt, a, p, b);
    ScanSilent(rs, m, pkt, a, p);
    ScanSilent(rs, m, pkt, p + 1, b);
  }

  lemma {:induction false} OneRule(r: Rule, m: Routes, pkt: Packet)
    ensures SeqVerdict([r], m, pkt) == RuleVerdict(r, m, pkt)
  {
    assert [r][1..] == [];
  }

  // ---------------------------------------------------------------- forwarded IPv6 packets

  ghost function Verdict6(k: Tables, cfg: Config, pkt: Packet): Verdict {
    Scan(k.rules6, k.routes6, pkt, cfg.prioStart, cfg.prioStart + Block6Size(cfg))
  }

  lemma TableHolds(k: Tables, cfg: Config, o: Owned, base: Tables, u: nat)
    requires Agrees(k, cfg, o, base) && u < |cfg.uplinks|
    ensures forall q: (int, int) :: q.0 == UplinkTable(cfg, u) ==>
              RouteAt(k.routes6, q) == if q.1 == DEFAULT_METRIC6 then Route6At(cfg, o, u) else None
  {
    forall q: (int, int) | q.0 == UplinkTable(cfg, u)
      ensures RouteAt(k.routes6, q) == if q.1 == DEFAULT_METRIC6 then Route6At(cfg, o, u) else None
    {
      assert RouteAt(k.routes6, q) == ExpectRoute6(cfg, o, base.routes6, q);
    }
  }

  /** The table of an uplink holds the route the daemon put there or none. */
  lemma UplinkTableRoute(k: Tables, cfg: Config, c: Core, base: Tables, u: nat)
    requires Accepted(cfg) && RecordOk(cfg, c) && Agrees(k, cfg, c.own, base) && u < |cfg.uplinks|
    ensures TableRoute(k.routes6, UplinkTable(cfg, u)) == Route6At(cfg, c.own, u)
    ensures Route6At(cfg, c.own, u).Some? ==> Route6At(cfg, c.own, u).value.dev == cfg.uplinks[u].iface
  {
    hide InstalledOk, LastPd, Agrees, Accepted;
    var t := UplinkTable(cfg, u);
    TableHolds(k, cfg, c.own, base, u);
    if (t, DEFAULT_METRIC6) in k.routes6 {
      assert Wins(k.routes6, t, (t, DEFAULT_METRIC6));
    }
  }

  /** The names an IPv6 record holds are names of its own uplink's macvlans. */
  lemma RecordNames(cfg: Config, c: Core, u: nat)
    requires RecordOk(cfg, c) && u < |cfg.uplinks|
    ensures (ShOf(cfg, c.own, u).fwd != map[] || ShOf(cfg, c.own, u).prohibit != {}) ==> Ipv6Uplink(cfg.uplinks[u])
  {
    hide AllMvs, LastPd;
    assert InstalledOk(cfg, u, ShOf(cfg, c.own, u), LastPd(c.trace, NameOf(cfg, u)));
  }

  /** A packet from macvlan (u, n) matches no rule of another macvlan or of the router's own traffic. */
  lemma {:induction false} OthersSilent(k: Tables, cfg: Config, c: Core, base: Tables, u: nat, n: nat, pkt: Packet, s: Slot6)
    requires Accepted(cfg) && WellNamed(cfg) && RecordOk(cfg, c) && Agrees(k, cfg, c.own, base)
    requires u < |cfg.uplinks| && Ipv6Uplink(cfg.uplinks[u]) && n < |cfg.networks| && pkt.iif == Mv(cfg, u, n)
    requires Valid6(cfg, s) && s != Fwd6(u, n) && s != Reject6(u, n) && (s == Internal6 ==> pkt.main.None?)
    ensures SeqVerdict(At(k.rules6, Prio6(cfg, s)), k.routes6, pkt) == Undecided
  {
    hide Accepted, RecordOk, Agrees, MacvlanName, Prio6, TableRoute;
    RulesOfSlot6(k, cfg, c.own, base, s);
    assert NamesExist(cfg, u);
    MacvlanIsNotLoopback(cfg.networks[n].iface, u);
    if s.Fwd6? || s.Reject6? {
      RecordNames(cfg, c, s.u);
      if Ipv6Uplink(cfg.uplinks[s.u]) {
        OtherMacvlan(cfg, u, n, s.u, s.n);
      }
    }
    forall r | Want6(cfg, c.own, s) == [r] ensures RuleVerdict(r, k.routes6, pkt) == Undecided {
    }
    if Want6(cfg, c.own, s) != [] {
      assert Want6(cfg, c.own, s) == [Want6(cfg, c.own, s)[0]];
      OneRule(Want6(cfg, c.own, s)[0], k.routes6, pkt);
    }
  }

  lemma OtherMacvlan(cfg: Config, u: nat, n: nat, v: nat, m: nat)
    requires WellNamed(cfg) && u < |cfg.uplinks| && v < |cfg.uplinks| && n < |cfg.networks| && m < |cfg.networks|
    requires Ipv6Uplink(cfg.uplinks[u]) && Ipv6Uplink(cfg.uplinks[v]) && (u != v || n != m)
    ensures Mv(cfg, u, n) != Mv(cfg, v, m)
  {
    hide MacvlanName;
    assert NamesExist(cfg, u) && NamesExist(cfg, v) && NamesDistinct(cfg, u);
    if Mv(cfg, u, n) == Mv(cfg, v, m) {
      MacvlanNamesDisjoint(cfg.networks[n].iface, u, cfg.networks[m].iface, v);
    }
  }

  /** The verdict on a packet from macvlan (u, n) is that of its accept rule, else that of its prohibit rule. */
  lemma {:induction false} MacvlanVerdict(k: Tables, cfg: Config, c: Core, base: Tables, u: nat, n: nat, pkt: Packet)
    requires Accepted(cfg) && WellNamed(cfg) && RecordOk(cfg, c) && Agrees(k, cfg, c.own, base)
    requires u < |cfg.uplinks| && Ipv6Uplink(cfg.uplinks[u]) && n < |cfg.networks| && pkt.iif == Mv(cfg, u, n) && pkt.main.None?
    ensures Verdict6(k, cfg, pkt) == Then(SeqVerdict(Want6(cfg, c.own, Fwd6(u, n)), k.routes6, pkt),
                                          SeqVerdict(Want6(cfg, c.own, Reject6(u, n)), k.routes6, pkt))
  {
    hide Accepted, RecordOk, Agrees, Prio6, SeqVerdict, WellNamed, Mv, Want6;
    var fwd, reject := Prio6(cfg, Fwd6(u, n)), Prio6(cfg, Reject6(u, n));
    var start, end := cfg.prioStart, cfg.prioStart + Block6Size(cfg);
    PrioIsPlace(cfg, Fwd6(u, n));
    PrioIsPlace(cfg, Reject6(u, n));
    RulesOfSlot6(k, cfg, c.own, base, Fwd6(u, n));
    RulesOfSlot6(k, cfg, c.own, base, Reject6(u, n));
    forall p | start <= p < end && p != fwd && p != reject ensures SeqVerdict(At(k.rules6, p), k.routes6, pkt) == Undecided {
      var s := Surjective6(cfg, p);
      OthersSilent(k, cfg, c, base, u, n, pkt, s);
    }
    ScanSplit(k.rules6, k.routes6, pkt, start, reject, end);
    ScanOne(k.rules6, k.routes6, pkt, start, fwd, reject);
    ScanOne(k.rules6, k.routes6, pkt, reject, reject, end);
  }

  /** The source selector of the accept rules of `u`: none, or the delegation read last. */
  function Constraint(cfg: Config, c: Core, u: nat): Option<Prefix>
    requires u < |cfg.uplinks|
  {
    if cfg.rejectWrongPdSrc then LastPd(c.trace, NameOf(cfg, u)) else None
  }

  predicate Admitted(cfg: Config, c: Core, u: nat, pkt: Packet)
    requires u < |cfg.uplinks|
  {
    var p := Constraint(cfg, c, u);
    p.Some? ==> pkt.From(FromPrefix(p.value))
  }

  /**
   * A packet that enters by a macvlan of a PD uplink and matches no specific route leaves by that uplink's WAN
   * interface if its source is admitted and the uplink has a route; otherwise it is prohibited if prohibit rules are in,
   * and falls through the daemon's block if not. It never uses another uplink's table.
   */
  lemma SourcePath(k: Tables, cfg: Config, c: Core, base: Tables, u: nat, n: nat, pkt: Packet)
    requires Accepted(cfg) && WellNamed(cfg) && RecordOk(cfg, c) && Agrees(k, cfg, c.own, base)
    requires u < |cfg.uplinks| && cfg.uplinks[u].ipv6Pd && n < |cfg.networks| && pkt.iif == Mv(cfg, u, n) && pkt.main.None?
    ensures var route := Route6At(cfg, c.own, u);
            Verdict6(k, cfg, pkt) ==
            if Admitted(cfg, c, u, pkt) && route.Some? then Via(route.value)
            else if Mv(cfg, u, n) in ShOf(cfg, c.own, u).prohibit then Refused
            else Undecided
    ensures Verdict6(k, cfg, pkt).Via? ==> Verdict6(k, cfg, pkt).route.dev == cfg.uplinks[u].iface
  {
    hide Accepted, Agrees, MacvlanName, WellNamed, Verdict6, LastPd, TableRoute, Flagged6;
    MacvlanVerdict(k, cfg, c, base, u, n, pkt);
    UplinkTableRoute(k, cfg, c, base, u);
    var mv := Mv(cfg, u, n);
    assert InstalledOk(cfg, u, ShOf(cfg, c.own, u), LastPd(c.trace, NameOf(cfg, u)));
    assert mv in AllMvs(cfg, u);
    assert ShOf(cfg, c.own, u).fwd[mv] == Constraint(cfg, c, u);
    OneRule(FwdRule(mv, UplinkTable(cfg, u), Constraint(cfg, c, u)), k.routes6, pkt);
    OneRule(ProhibitRule(mv), k.routes6, pkt);
  }

  /** Where prohibit rules are in: by the uplink within the delegation, prohibited otherwise. */
  lemma RejectsWhereProhibited(k: Tables, cfg: Config, c: Core, base: Tables, u: nat, n: nat, pkt: Packet)
    requires Accepted(cfg) && WellNamed(cfg) && RecordOk(cfg, c) && Agrees(k, cfg, c.own, base)
    requires u < |cfg.uplinks| && cfg.uplinks[u].ipv6Pd && n < |cfg.networks| && pkt.iif == Mv(cfg, u, n) && pkt.main.None?
    requires ShOf(cfg, c.own, u).prohibit != {}
    ensures var pd := LastPd(c.trace, NameOf(cfg, u));
            && cfg.rejectWrongPdSrc && pd.Some?
            && (Verdict6(k, cfg, pkt) == Refused <==> !pkt.From(FromPrefix(pd.value)) || Route6At(cfg, c.own, u).None?)
            && (Verdict6(k, cfg, pkt).Via? <==> pkt.From(FromPrefix(pd.value)) && Route6At(cfg, c.own, u).Some?)
  {
    hide Accepted, Agrees, Mv, WellNamed, Verdict6, LastPd, Flagged6;
    SourcePath(k, cfg, c, base, u, n, pkt);
    assert InstalledOk(cfg, u, ShOf(cfg, c.own, u), LastPd(c.trace, NameOf(cfg, u)));
    assert Mv(cfg, u, n) in AllMvs(cfg, u);
  }

  // ---------------------------------------------------------------- any IPv6 packet

  /** The tables a rule of the record may send packet `pkt` to, and why. */
  ghost predicate SentBy(cfg: Config, o: Owned, pkt: Packet, u: nat)
    requires u < |cfg.uplinks|
  {
    var i := ShOf(cfg, o, u);
    || (exists n :: 0 <= n < |cfg.networks| && pkt.iif == Mv(cfg, u, n) && Mv(cfg, u, n) in i.fwd)
    || (pkt.iif == LOOPBACK && i.lo6.Some? && pkt.From(FromPrefix(i.lo6.value)))
    || (pkt.iif == LOOPBACK && i.pdLo6.Some? && pkt.From(FromPrefix(i.pdLo6.value)))
  }

  lemma {:induction false} ScanDecides(rs: Rules, m: Routes, pkt: Packet, a: int, b: int) returns (p: int)
    requires Scan(rs, m, pkt, a, b) != Undecided
    ensures a <= p < b && SeqVerdict(At(rs, p), m, pkt) == Scan(rs, m, pkt, a, b)
    decreases b - a
  {
    if SeqVerdict(At(rs, a), m, pkt) != Undecided {
      p := a;
    } else {
      p := ScanDecides(rs, m, pkt, a + 1, b);
    }
  }

  /** Whatever packet it is: if the block routes it by a table, its interface and source belong to that table's uplink. */
  lemma NeverAnotherUplink(k: Tables, cfg: Config, c: Core, base: Tables, pkt: Packet)
    requires Accepted(cfg) && RecordOk(cfg, c) && Agrees(k, cfg, c.own, base) && pkt.main.None?
    requires Verdict6(k, cfg, pkt).Via?
    ensures exists u :: 0 <= u < |cfg.uplinks| && SentBy(cfg, c.own, pkt, u)
                        && Route6At(cfg, c.own, u) == Some(Verdict6(k, cfg, pkt).route)
                        && Verdict6(k, cfg, pkt).route.dev == cfg.uplinks[u].iface
  {
    hide Accepted, Agrees, RecordOk, MacvlanName, Prio6, TableRoute;
    var p := ScanDecides(k.rules6, k.routes6, pkt, cfg.prioStart, cfg.prioStart + Block6Size(cfg));
    var s := Surjective6(cfg, p);
    RulesOfSlot6(k, cfg, c.own, base, s);
    var r := Want6(cfg, c.own, s)[0];
    assert Want6(cfg, c.own, s) == [r];
    OneRule(r, k.routes6, pkt);
    assert !s.Internal6?;
    UplinkTableRoute(k, cfg, c, base, s.u);
    assert SentBy(cfg, c.own, pkt, s.u);
  }

  // ---------------------------------------------------------------- the router's own IPv6 packets

  /** The recorded source prefix of uplink `u`: its address or advertised prefix, or (`pd`) its delegation. */
  function OwnPrefix(cfg: Config, o: Owned, pd: bool, u: nat): Option<Prefix>
    requires u < |cfg.uplinks|
  {
    if pd then ShOf(cfg, o, u).pdLo6 else ShOf(cfg, o, u).lo6
  }

  predicate Covers(cfg: Config, o: Owned, pd: bool, u: nat, pkt: Packet)
    requires u < |cfg.uplinks|
  {
    var p := OwnPrefix(cfg, o, pd, u);
    p.Some? && pkt.From(FromPrefix(p.value))
  }

  /** The first uplink from `u` on whose prefix covers the source and that has a route. */
  function FirstCovering(cfg: Config, o: Owned, pd: bool, u: nat, pkt: Packet): Verdict
    requires u <= |cfg.uplinks|
    decreases |cfg.uplinks| - u
  {
    if u == |cfg.uplinks| then Undecided
    else Then(if Covers(cfg, o, pd, u, pkt) then Found(Route6At(cfg, o, u)) else Undecided, FirstCovering(cfg, o, pd, u + 1, pkt))
  }

  function OwnSlot(pd: bool, u: nat): Slot6 { if pd then PdLo6(u) else Slot6.Lo6(u) }

  lemma {:induction false} OwnSlotVerdict(k: Tables, cfg: Config, c: Core, base: Tables, pd: bool, u: nat, pkt: Packet)
    requires Accepted(cfg) && RecordOk(cfg, c) && Agrees(k, cfg, c.own, base) && u < |cfg.uplinks| && pkt.iif == LOOPBACK
    ensures SeqVerdict(At(k.rules6, Prio6(cfg, OwnSlot(pd, u))), k.routes6, pkt) ==
            if Covers(cfg, c.own, pd, u, pkt) then Found(Route6At(cfg, c.own, u)) else Undecided
  {
    hide Accepted, RecordOk, Agrees, TableRoute, Prio6;
    RulesOfSlot6(k, cfg, c.own, base, OwnSlot(pd, u));
    UplinkTableRoute(k, cfg, c, base, u);
    var p := OwnPrefix(cfg, c.own, pd, u);
    if p.Some? {
      OneRule(LoRule6(p.value, UplinkTable(cfg, u)), k.routes6, pkt);
    }
  }

  /** Rules of forwarded traffic do not speak to the router's own. */
  lemma {:induction false} ForwardingSilent(k: Tables, cfg: Config, o: Owned, base: Tables, s: Slot6, pkt: Packet)
    requires Agrees(k, cfg, o, base) && Valid6(cfg, s) && !s.Lo6? && !s.PdLo6? && pkt.iif == LOOPBACK && pkt.main.None?
    ensures SeqVerdict(At(k.rules6, Prio6(cfg, s)), k.routes6, pkt) == Undecided
  {
    hide Agrees, MacvlanName, Prio6, TableRoute;
    RulesOfSlot6(k, cfg, o, base, s);
    if s.Fwd6? || s.Reject6? {
      MacvlanIsNotLoopback(cfg.networks[s.n].iface, s.u);
    }
    if Want6(cfg, o, s) != [] {
      assert Want6(cfg, o, s) == [Want6(cfg, o, s)[0]];
      OneRule(Want6(cfg, o, s)[0], k.routes6, pkt);
    }
  }

  lemma {:induction false} ScanRow(k: Tables, cfg: Config, c: Core, base: Tables, pd: bool, u: nat, pkt: Packet)
    requires Accepted(cfg) && RecordOk(cfg, c) && Agrees(k, cfg, c.own, base) && u <= |cfg.uplinks| && pkt.iif == LOOPBACK
    ensures Scan(k.rules6, k.routes6, pkt, Prio6(cfg, OwnSlot(pd, u)), Prio6(cfg, OwnSlot(pd, |cfg.uplinks|))) ==
            FirstCovering(cfg, c.own, pd, u, pkt)
    decreases |cfg.uplinks| - u
  {
    hide Accepted, RecordOk, Agrees, SeqVerdict, Covers;
    if u < |cfg.uplinks| {
      ScanRow(k, cfg, c, base, pd, u + 1, pkt);
      OwnSlotVerdict(k, cfg, c, base, pd, u, pkt);
    }
  }

  /** Everything in [a, b) belongs to forwarding. */
  lemma {:induction false} ScanForwarding(k: Tables, cfg: Config, o: Owned, base: Tables, a: int, b: int, pkt: Packet)
    requires Agrees(k, cfg, o, base) && pkt.iif == LOOPBACK && pkt.main.None?
    requires forall p :: a <= p < b ==> InBlock6(cfg, p)
    requires forall s :: Valid6(cfg, s) && a <= Prio6(cfg, s) < b ==> !s.Lo6? && !s.PdLo6?
    ensures Scan(k.rules6, k.routes6, pkt, a, b) == Undecided
  {
    hide Agrees, Prio6, SeqVerdict, InBlock6, Valid6;
    forall p | a <= p < b ensures SeqVerdict(At(k.rules6, p), k.routes6, pkt) == Undecided {
      var s := Surjective6(cfg, p);
      ForwardingSilent(k, cfg, o, base, s, pkt);
    }
    ScanSilent(k.rules6, k.routes6, pkt, a, b);
  }

  /** A packet of the router itself goes by the first uplink whose address prefix covers its source, else by the first
      whose delegation does; uplinks without a route are passed over. */
  lemma {:induction false} OwnPath(k: Tables, cfg: Config, c: Core, base: Tables, pkt: Packet)
    requires Accepted(cfg) && RecordOk(cfg, c) && Agrees(k, cfg, c.own, base) && pkt.iif == LOOPBACK && pkt.main.None?
    ensures Verdict6(k, cfg, pkt) == Then(FirstCovering(cfg, c.own, false, 0, pkt), FirstCovering(cfg, c.own, true, 0, pkt))
  {
    hide Accepted, RecordOk, Agrees, FirstCovering, Scan, Prio6;
    var U, M := |cfg.uplinks|, |cfg.networks|;
    var start := cfg.prioStart;
    var lo, reject, pd, end := start + 1 + U * M, start + 1 + U * M + U, start + 1 + U * M + U + U * M, start + Block6Size(cfg);
    Rows(cfg);
    ScanForwarding(k, cfg, c.own, base, start, lo, pkt);
    ScanRow(k, cfg, c, base, false, 0, pkt);
    ScanForwarding(k, cfg, c.own, base, reject, pd, pkt);
    ScanRow(k, cfg, c, base, true, 0, pkt);
    ScanSplit(k.rules6, k.routes6, pkt, start, lo, end);
    ScanSplit(k.rules6, k.routes6, pkt, lo, reject, end);
    ScanSplit(k.rules6, k.routes6, pkt, reject, pd, end);
  }

  /** The families' rows within the block. */
  lemma Rows(cfg: Config)
    ensures var U, N, start := |cfg.uplinks|, |cfg.uplinks| * |cfg.networks|, cfg.prioStart;
            && Prio6(cfg, OwnSlot(false, 0)) == start + 1 + N && Prio6(cfg, OwnSlot(false, U)) == start + 1 + N + U
            && Prio6(cfg, OwnSlot(true, 0)) == start + 1 + N + U + N && Prio6(cfg, OwnSlot(true, U)) == start + Block6Size(cfg)
            && 0 <= N
            && (forall s :: Valid6(cfg, s) && start <= Prio6(cfg, s) < start + 1 + N ==> !s.Lo6? && !s.PdLo6?)
            && (forall s :: Valid6(cfg, s) && start + 1 + N + U <= Prio6(cfg, s) < start + 1 + N + U + N ==> !s.Lo6? && !s.PdLo6?)
            && (forall p :: start <= p < start + Block6Size(cfg) ==> InBlock6(cfg, p))
  {
  }

  /** If one uplink alone claims the source, its route is used. */
  lemma SoleOwner(k: Tables, cfg: Config, c: Core, base: Tables, pkt: Packet, u: nat)
    requires Accepted(cfg) && RecordOk(cfg, c) && Agrees(k, cfg, c.own, base) && pkt.iif == LOOPBACK && pkt.main.None?
    requires u < |cfg.uplinks| && (exists pd :: Covers(cfg, c.own, pd, u, pkt))
    requires forall v, pd :: 0 <= v < |cfg.uplinks| && v != u ==> !Covers(cfg, c.own, pd, v, pkt)
    ensures Verdict6(k, cfg, pkt) == Found(Route6At(cfg, c.own, u))
  {
    hide Accepted, RecordOk, Agrees, Verdict6, Covers;
    OwnPath(k, cfg, c, base, pkt);
    OnlyOne(cfg, c.own, false, 0, pkt, u);
    OnlyOne(cfg, c.own, true, 0, pkt, u);
  }

  lemma {:induction false} OnlyOne(cfg: Config, o: Owned, pd: bool, from: nat, pkt: Packet, u: nat)
    requires from <= |cfg.uplinks| && u < |cfg.uplinks|
    requires forall v :: 0 <= v < |cfg.uplinks| && v != u ==> !Covers(cfg, o, pd, v, pkt)
    ensures FirstCovering(cfg, o, pd, from, pkt) ==
            if from <= u && Covers(cfg, o, pd, u, pkt) then Found(Route6At(cfg, o, u)) else Undecided
    decreases |cfg.uplinks| - from
  {
    hide Covers;
    if from < |cfg.uplinks| {
      OnlyOne(cfg, o, pd, from + 1, pkt, u);
    }
  }

  // ---------------------------------------------------------------- IPv4 packets

  ghost function Verdict4(k: Tables, cfg: Config, pkt: Packet): Verdict {
    Scan(k.rules4, k.routes4, pkt, cfg.prioStart, cfg.prioStart + Block4Size(cfg))
  }

  lemma RulesOfSlot4(k: Tables, cfg: Config, o: Owned, base: Tables, s: Slot4)
    requires Agrees(k, cfg, o, base) && Valid4(cfg, s)
    ensures At(k.rules4, Prio4(cfg, s)) == Want4(cfg, o, s) && |Want4(cfg, o, s)| <= 1
  {
    SlotOfPrio4(cfg, s);
    assert At(k.rules4, Prio4(cfg, s)) == Expect4(cfg, o, base.rules4, Prio4(cfg, s));
  }

  /** The UP uplink of least metric. */
  ghost predicate Best4(cfg: Config, hs: Healths, u: int) {
    Up4(cfg, hs, u) && forall v :: Up4(cfg, hs, v) ==> cfg.uplinks[u].metric <= cfg.uplinks[v].metric
  }

  /** By uplink `u`: through its interface, to its recorded gateway. */
  predicate LeavesBy(cfg: Config, o: Owned, u: int, v: Verdict) {
    0 <= u < |cfg.uplinks| && ShOf(cfg, o, u).gw4.Some? && v == Via(Route(ShOf(cfg, o, u).gw4.value, cfg.uplinks[u].iface, None))
  }

  /** By the UP uplink of least metric, or not at all if none is UP. */
  ghost predicate LeavesByBest(cfg: Config, c: Core, v: Verdict) {
    && (forall u :: Best4(cfg, c.health, u) ==> LeavesBy(cfg, c.own, u, v))
    && ((forall u :: !Up4(cfg, c.health, u)) ==> v == Undecided)
  }

  /** The daemon's routing tables hold for an UP uplink its route, by metric in the shared one, and alone in its own. */
  lemma Routes4(k: Tables, cfg: Config, c: Core, base: Tables)
    requires Accepted(cfg) && AllSettled(cfg, c, |cfg.uplinks|) && Agrees(k, cfg, c.own, base)
    ensures LeavesByBest(cfg, c, Found(TableRoute(k.routes4, Ipv4Table(cfg))))
    ensures forall u :: Up4(cfg, c.health, u) ==> LeavesBy(cfg, c.own, u, Found(TableRoute(k.routes4, UplinkTable(cfg, u))))
  {
    hide Accepted, Agrees;
    SharedTable(k, cfg, c, base);
    forall u | Best4(cfg, c.health, u) ensures LeavesBy(cfg, c.own, u, Found(TableRoute(k.routes4, Ipv4Table(cfg)))) {
      SharedWinner(k, cfg, c, base, u);
      KeyRoute4(k, cfg, c.own, base, u, SharedKey(cfg, u));
    }
    forall u | Up4(cfg, c.health, u) ensures LeavesBy(cfg, c.own, u, Found(TableRoute(k.routes4, UplinkTable(cfg, u)))) {
      OwnWinner(k, cfg, c, base, u);
      KeyRoute4(k, cfg, c.own, base, u, (UplinkTable(cfg, u), 0));
    }
  }

  lemma KeyRoute4(k: Tables, cfg: Config, o: Owned, base: Tables, u: nat, key: (int, int))
    requires Accepted(cfg) && Agrees(k, cfg, o, base) && u < |cfg.uplinks| && OwnsKey4(cfg, u, key)
    ensures RouteAt(k.routes4, key) == WantRoute4(cfg, o, u)
  {
    hide Accepted;
    OwnerOfKey4(cfg, u, key);
    assert RouteAt(k.routes4, key) == ExpectRoute4(cfg, o, base.routes4, key);
  }

  lemma SharedWinner(k: Tables, cfg: Config, c: Core, base: Tables, u: nat)
    requires Accepted(cfg) && AllSettled(cfg, c, |cfg.uplinks|) && Agrees(k, cfg, c.own, base) && Best4(cfg, c.health, u)
    ensures SharedKey(cfg, u) in k.routes4
            && TableRoute(k.routes4, Ipv4Table(cfg)) == Some(k.routes4[SharedKey(cfg, u)])
  {
    hide Accepted, Agrees, AllSettled;
    SharedTable(k, cfg, c, base);
    assert Up4(cfg, c.health, u);
    forall q | q in k.routes4 && q.0 == Ipv4Table(cfg) ensures cfg.uplinks[u].metric <= q.1 {
      var v :| Up4(cfg, c.health, v) && q == SharedKey(cfg, v);
    }
    assert Wins(k.routes4, Ipv4Table(cfg), SharedKey(cfg, u));
  }

  lemma OwnWinner(k: Tables, cfg: Config, c: Core, base: Tables, u: nat)
    requires Accepted(cfg) && AllSettled(cfg, c, |cfg.uplinks|) && Agrees(k, cfg, c.own, base) && Up4(cfg, c.health, u)
    ensures var key := (UplinkTable(cfg, u), 0);
            key in k.routes4 && TableRoute(k.routes4, UplinkTable(cfg, u)) == Some(k.routes4[key])
  {
    hide Accepted, AllSettled;
    SharedTable(k, cfg, c, base);
    var t := UplinkTable(cfg, u);
    forall q | q in k.routes4 && q.0 == t ensures q == (t, 0) {
      assert RouteAt(k.routes4, q) == ExpectRoute4(cfg, c.own, base.routes4, q);
    }
    assert Wins(k.routes4, t, (t, 0));
  }

  /** What the rules of one slot say to a packet without a specific route. */
  lemma {:induction false} Slot4Verdict(k: Tables, cfg: Config, o: Owned, base: Tables, s: Slot4, pkt: Packet)
    requires Agrees(k, cfg, o, base) && Valid4(cfg, s) && pkt.main.None?
    ensures SeqVerdict(At(k.rules4, Prio4(cfg, s)), k.routes4, pkt) ==
            match s
            case Internal4 => Undecided
            case Lo4(u) =>
              if pkt.iif == LOOPBACK && ShOf(cfg, o, u).lo4.Some? && pkt.Is(ShOf(cfg, o, u).lo4.value)
              then Found(TableRoute(k.routes4, UplinkTable(cfg, u))) else Undecided
            case FwdToWan4 => if o.on4 then Found(TableRoute(k.routes4, Ipv4Table(cfg))) else Undecided
  {
    hide Agrees, TableRoute;
    RulesOfSlot4(k, cfg, o, base, s);
    if Want4(cfg, o, s) != [] {
      assert Want4(cfg, o, s) == [Want4(cfg, o, s)[0]];
      OneRule(Want4(cfg, o, s)[0], k.routes4, pkt);
    }
  }

  /** The recorded lease address of an UP uplink is the packet's source, and the packet is the router's own. */
  predicate Owns4(cfg: Config, c: Core, u: int, pkt: Packet) {
    && Up4(cfg, c.health, u) && pkt.iif == LOOPBACK
    && ShOf(cfg, c.own, u).lo4.Some? && pkt.Is(ShOf(cfg, c.own, u).lo4.value)
  }

  lemma {:induction false} LoWalk4(k: Tables, cfg: Config, c: Core, base: Tables, from: nat, pkt: Packet)
    requires Accepted(cfg) && AllSettled(cfg, c, |cfg.uplinks|) && Agrees(k, cfg, c.own, base) && pkt.main.None?
    requires from <= |cfg.uplinks|
    ensures var walk := Scan(k.rules4, k.routes4, pkt, Ipv4LoToUplink(cfg, from), Ipv4FwdToWan(cfg));
            && (forall u :: from <= u && Owns4(cfg, c, u, pkt) && (forall v :: from <= v < u ==> !Owns4(cfg, c, v, pkt)) ==>
                  LeavesBy(cfg, c.own, u, walk))
            && ((forall u :: from <= u ==> !Owns4(cfg, c, u, pkt)) ==> walk == Undecided)
    decreases |cfg.uplinks| - from
  {
    hide Accepted, Agrees, TableRoute, SeqVerdict, LeavesBy, Packet.Is;
    if from < |cfg.uplinks| {
      LoWalk4(k, cfg, c, base, from + 1, pkt);
      Slot4Verdict(k, cfg, c.own, base, Slot4.Lo4(from), pkt);
      Routes4(k, cfg, c, base);
      var here := Found(TableRoute(k.routes4, UplinkTable(cfg, from)));
      LeavesIsDecided(cfg, c.own, from, here);
      assert SettledAt(cfg, c, from);
      assert SeqVerdict(At(k.rules4, Ipv4LoToUplink(cfg, from)), k.routes4, pkt) ==
             if Owns4(cfg, c, from, pkt) then here else Undecided;
      forall u | from <= u && Owns4(cfg, c, u, pkt) && (forall v :: from <= v < u ==> !Owns4(cfg, c, v, pkt))
        ensures LeavesBy(cfg, c.own, u, Scan(k.rules4, k.routes4, pkt, Ipv4LoToUplink(cfg, from), Ipv4FwdToWan(cfg)))
      {
        if u > from {
          assert !Owns4(cfg, c, from, pkt);
        }
      }
    }
  }

  lemma LeavesIsDecided(cfg: Config, o: Owned, u: int, v: Verdict)
    ensures LeavesBy(cfg, o, u, v) ==> v != Undecided
  {
  }

  /** The rules for the router's own packets come first, then the shared table. */
  lemma {:induction false} Verdict4Parts(k: Tables, cfg: Config, o: Owned, base: Tables, pkt: Packet)
    requires o.on4 && Agrees(k, cfg, o, base) && pkt.main.None?
    ensures Verdict4(k, cfg, pkt) == Then(Scan(k.rules4, k.routes4, pkt, Ipv4LoToUplink(cfg, 0), Ipv4FwdToWan(cfg)),
                                          Found(TableRoute(k.routes4, Ipv4Table(cfg))))
  {
    hide Agrees, TableRoute, SeqVerdict, Scan;
    var start, lo, fwd := cfg.prioStart, Ipv4LoToUplink(cfg, 0), Ipv4FwdToWan(cfg);
    Slot4Verdict(k, cfg, o, base, Internal4, pkt);
    Slot4Verdict(k, cfg, o, base, FwdToWan4, pkt);
    ScanSplit(k.rules4, k.routes4, pkt, start, lo, fwd + 1);
    ScanSplit(k.rules4, k.routes4, pkt, lo, fwd, fwd + 1);
    ScanOne(k.rules4, k.routes4, pkt, start, start, lo);
    ScanOne(k.rules4, k.routes4, pkt, fwd, fwd, fwd + 1);
  }

  /**
   * IPv4 without a specific route: the router's own packet leaves by the first UP uplink whose lease address is its
   * source; any other packet, forwarded or not, by the UP uplink of least metric; it falls through iff no uplink is UP.
   */
  lemma Ipv4Paths(k: Tables, cfg: Config, c: Core, base: Tables, pkt: Packet)
    requires Accepted(cfg) && AllSettled(cfg, c, |cfg.uplinks|) && c.own.on4 && Agrees(k, cfg, c.own, base) && pkt.main.None?
    ensures forall u :: Owns4(cfg, c, u, pkt) && (forall v :: 0 <= v < u ==> !Owns4(cfg, c, v, pkt)) ==>
              LeavesBy(cfg, c.own, u, Verdict4(k, cfg, pkt))
    ensures (forall u :: !Owns4(cfg, c, u, pkt)) ==> LeavesByBest(cfg, c, Verdict4(k, cfg, pkt))
  {
    hide Accepted, AllSettled, Agrees, TableRoute, Scan, Verdict4, LeavesBy, LeavesByBest, Owns4;
    Verdict4Parts(k, cfg, c.own, base, pkt);
    LoWalk4(k, cfg, c, base, 0, pkt);
    Routes4(k, cfg, c, base);
    var walk := Scan(k.rules4, k.routes4, pkt, Ipv4LoToUplink(cfg, 0), Ipv4FwdToWan(cfg));
    forall u | Owns4(cfg, c, u, pkt) && (forall v :: 0 <= v < u ==> !Owns4(cfg, c, v, pkt))
      ensures LeavesBy(cfg, c.own, u, Verdict4(k, cfg, pkt))
    {
      OwnsIsUplink(cfg, c, u, pkt);
      LeavesIsDecided(cfg, c.own, u, walk);
    }
  }

  lemma OwnsIsUplink(cfg: Config, c: Core, u: int, pkt: Packet)
    requires Owns4(cfg, c, u, pkt)
    ensures 0 <= u < |cfg.uplinks|
  {
  }

  /** At a boundary the packets that no lease address claims leave by the reported primary. */
  lemma Ipv4Path(k: Tables, d: DaemonState, base: Tables, pkt: Packet)
    requires Boundary(d) && Agrees(k, d.cfg, d.core.own, base) && pkt.main.None?
    ensures forall u :: Owns4(d.cfg, d.core, u, pkt) && (forall v :: 0 <= v < u ==> !Owns4(d.cfg, d.core, v, pkt)) ==>
              Verdict4(k, d.cfg, pkt).Via? && Verdict4(k, d.cfg, pkt).route.dev == d.cfg.uplinks[u].iface
    ensures (forall u :: !Owns4(d.cfg, d.core, u, pkt)) ==>
              match PrimaryIpv4(d.cfg, d.core.health)
              case Some(u) =>
                && d.primary4 == Some(d.cfg.uplinks[u].name)
                && Verdict4(k, d.cfg, pkt).Via? && Verdict4(k, d.cfg, pkt).route.dev == d.cfg.uplinks[u].iface
              case None => d.primary4 == None && Verdict4(k, d.cfg, pkt) == Undecided
  {
    hide Accepted, TiersCurrent, Agrees, LinksOk, AllSettled, Verdict4, Owns4;
    Ipv4Paths(k, d.cfg, d.core, base, pkt);
    var p := PrimaryIpv4(d.cfg, d.core.health);
    if p.Some? {
      assert Best4(d.cfg, d.core.health, p.value);
    }
  }

  // ---------------------------------------------------------------- specific routes

  /** A packet with a specific route takes it, whatever its source: the first rule of either block is the main table's. */
  lemma SpecificRouteWins(k: Tables, cfg: Config, o: Owned, base: Tables, pkt: Packet)
    requires Agrees(k, cfg, o, base) && o.on4 && o.on6 && pkt.main.Some?
    ensures Verdict4(k, cfg, pkt) == Verdict6(k, cfg, pkt) == Via(pkt.main.value)
  {
    hide Agrees;
    RulesOfSlot4(k, cfg, o, base, Internal4);
    RulesOfSlot6(k, cfg, o, base, Internal6);
    OneRule(MainRule(), k.routes4, pkt);
    OneRule(MainRule(), k.routes6, pkt);
  }
}
