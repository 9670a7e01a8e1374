/**
 * `_UplinkRouting`, the daemon's record of what it installed, and its meaning: the exact kernel contents the record
 * stands for. The daemon never reads the kernel back, so every command must keep the two in agreement.
 */
module Shadow {
  import opened Wrappers
  import opened Configuration
  import opened Priority
  import opened Naming
  import opened Routing

  /** One `_UplinkRouting`. */
  datatype Installed = Installed(
    gw4: Option<string>,
    lo4: Option<string>,
    route6: bool,
    lo6: Option<Prefix>,
    pdLo6: Option<Prefix>,
    fwd: map<string, Option<Prefix>>,
    prohibit: set<string>)

  const NOTHING := Installed(None, None, false, None, None, map[], {})

  /** Everything the daemon owns in the kernel: the records by uplink name, the two global-rule flags, and the
      IPv6 default route of each uplink (whose gateway and expiry the record does not hold). */
  datatype Owned = Owned(sh: map<string, Installed>, r6: map<string, Option<Route>>, on4: bool, on6: bool)

  function Names(cfg: Config): set<string> { set i | 0 <= i < |cfg.uplinks| :: cfg.uplinks[i].name }

  function NothingOwned(cfg: Config): Owned {
    Owned(map s | s in Names(cfg) :: NOTHING, map s | s in Names(cfg) :: None, false, false)
  }

  lemma NothingKeys(cfg: Config)
    ensures NothingOwned(cfg).sh.Keys == NothingOwned(cfg).r6.Keys == Names(cfg)
  {
  }

  function ShOf(cfg: Config, o: Owned, u: nat): Installed
    requires u < |cfg.uplinks|
  {
    GetOr(o.sh, cfg.uplinks[u].name, NOTHING)
  }

  // ---------------------------------------------------------------- what the record stands for

  function Want4(cfg: Config, o: Owned, s: Slot4): seq<Rule>
    requires Valid4(cfg, s)
  {
    match s
    case Internal4 => if o.on4 then [MainRule()] else []
    case FwdToWan4 => if o.on4 then [TableRule(Ipv4Table(cfg))] else []
    case Lo4(u) =>
      match ShOf(cfg, o, u).lo4
      case Some(addr) => [LoRule4(addr, UplinkTable(cfg, u))]
      case None => []
  }

  function LoRules(p: Option<Prefix>, table: int): seq<Rule> {
    if p.Some? then [LoRule6(p.value, table)] else []
  }

  function Want6(cfg: Config, o: Owned, s: Slot6): seq<Rule>
    requires Valid6(cfg, s)
  {
    match s
    case Internal6 => if o.on6 then [MainRule()] else []
    case Fwd6(u, n) =>
      var mv := Mv(cfg, u, n);
      var fwd := ShOf(cfg, o, u).fwd;
      if mv in fwd then [FwdRule(mv, UplinkTable(cfg, u), fwd[mv])] else []
    case Lo6(u) => LoRules(ShOf(cfg, o, u).lo6, UplinkTable(cfg, u))
    case Reject6(u, n) =>
      var mv := Mv(cfg, u, n);
      if mv in ShOf(cfg, o, u).prohibit then [ProhibitRule(mv)] else []
    case PdLo6(u) => LoRules(ShOf(cfg, o, u).pdLo6, UplinkTable(cfg, u))
  }

  ghost function Slot4At(cfg: Config, p: int): Option<Slot4> {
    if s :| Valid4(cfg, s) && Prio4(cfg, s) == p then Some(s) else None
  }

  ghost function Slot6At(cfg: Config, p: int): Option<Slot6> {
    if s :| Valid6(cfg, s) && Prio6(cfg, s) == p then Some(s) else None
  }

  ghost function Expect4(cfg: Config, o: Owned, base: Rules, p: int): seq<Rule> {
    match Slot4At(cfg, p)
    case Some(s) => Want4(cfg, o, s)
    case None => At(base, p)
  }

  ghost function Expect6(cfg: Config, o: Owned, base: Rules, p: int): seq<Rule> {
    match Slot6At(cfg, p)
    case Some(s) => Want6(cfg, o, s)
    case None => At(base, p)
  }

  /** The IPv4 route keys of an uplink: by its metric in the shared table, and at metric 0 in its own. */
  predicate OwnsKey4(cfg: Config, u: int, k: (int, int)) {
    0 <= u < |cfg.uplinks| && (k == (Ipv4Table(cfg), cfg.uplinks[u].metric) || k == (UplinkTable(cfg, u), 0))
  }

  ghost function Owner4(cfg: Config, k: (int, int)): Option<nat> {
    if u: nat :| OwnsKey4(cfg, u, k) then Some(u) else None
  }

  predicate OurTable4(cfg: Config, t: int) { cfg.tableStart <= t <= cfg.tableStart + |cfg.uplinks| }

  predicate OurTable6(cfg: Config, t: int) { cfg.tableStart < t <= cfg.tableStart + |cfg.uplinks| }

  function RouteAt(m: Routes, k: (int, int)): Option<Route> { if k in m then Some(m[k]) else None }

  function WantRoute4(cfg: Config, o: Owned, u: nat): Option<Route>
    requires u < |cfg.uplinks|
  {
    match ShOf(cfg, o, u).gw4
    case Some(gw) => Some(Route(gw, cfg.uplinks[u].iface, None))
    case None => None
  }

  ghost function ExpectRoute4(cfg: Config, o: Owned, base: Routes, k: (int, int)): Option<Route> {
    if !OurTable4(cfg, k.0) then RouteAt(base, k)
    else match Owner4(cfg, k)
      case Some(u) => WantRoute4(cfg, o, u)
      case None => None
  }

  function ExpectRoute6(cfg: Config, o: Owned, base: Routes, k: (int, int)): Option<Route> {
    if !OurTable6(cfg, k.0) then RouteAt(base, k)
    else if k.1 == DEFAULT_METRIC6 then GetOr(o.r6, cfg.uplinks[k.0 - cfg.tableStart - 1].name, None)
    else None
  }

  /** The kernel holds exactly what the record says, and outside the daemon's block and tables exactly `base`. */
  ghost predicate Agrees(k: Tables, cfg: Config, o: Owned, base: Tables) {
    && Normal(k.rules4) && Normal(k.rules6)
    && (forall p :: At(k.rules4, p) == Expect4(cfg, o, base.rules4, p))
    && (forall p :: At(k.rules6, p) == Expect6(cfg, o, base.rules6, p))
    && (forall q :: RouteAt(k.routes4, q) == ExpectRoute4(cfg, o, base.routes4, q))
    && (forall q :: RouteAt(k.routes6, q) == ExpectRoute6(cfg, o, base.routes6, q))
  }

  /** Before the daemon starts its priority block and its tables are unused. */
  ghost predicate Free(cfg: Config, base: Tables) {
    && Normal(base.rules4) && Normal(base.rules6)
    && (forall p :: InBlock4(cfg, p) ==> p !in base.rules4)
    && (forall p :: InBlock6(cfg, p) ==> p !in base.rules6)
    && (forall q :: q in base.routes4 ==> !OurTable4(cfg, q.0))
    && (forall q :: q in base.routes6 ==> !OurTable6(cfg, q.0))
  }

  // ---------------------------------------------------------------- slots and priorities

  lemma SlotOfPrio4(cfg: Config, s: Slot4)
    requires Valid4(cfg, s)
    ensures Slot4At(cfg, Prio4(cfg, s)) == Some(s)
  {
  }

  lemma SlotOfPrio6(cfg: Config, s: Slot6)
    requires Valid6(cfg, s)
    ensures Slot6At(cfg, Prio6(cfg, s)) == Some(s)
  {
    var t := Slot6At(cfg, Prio6(cfg, s));
    Injective6(cfg, s, t.value);
  }

  lemma OwnerOfKey4(cfg: Config, u: nat, k: (int, int))
    requires Accepted(cfg) && OwnsKey4(cfg, u, k)
    ensures Owner4(cfg, k) == Some(u) && OurTable4(cfg, k.0)
  {
  }

  // ---------------------------------------------------------------- one command at a time

  /** Rules of IPv6 slot `s` become what the new record wants; every other slot wants what it wanted. */
  lemma SetSlot6(k: Tables, cfg: Config, o: Owned, base: Tables, s: Slot6, k': Tables, o': Owned)
    requires Agrees(k, cfg, o, base) && Valid6(cfg, s)
    requires k' == k.(rules6 := k'.rules6) && Normal(k'.rules6)
    requires At(k'.rules6, Prio6(cfg, s)) == Want6(cfg, o', s)
    requires forall p :: p != Prio6(cfg, s) ==> At(k'.rules6, p) == At(k.rules6, p)
    requires forall t :: Valid6(cfg, t) && t != s ==> Want6(cfg, o', t) == Want6(cfg, o, t)
    requires SameElsewhere6(cfg, o, o')
    ensures Agrees(k', cfg, o', base)
  {
    hide Prio6, Want6, Want4, WantRoute4, ExpectRoute6, ExpectRoute4, Expect4;
    SlotOfPrio6(cfg, s);
    forall p ensures At(k'.rules6, p) == Expect6(cfg, o', base.rules6, p) {
      assert At(k.rules6, p) == Expect6(cfg, o, base.rules6, p);
    }
    SameRules4(k, cfg, o, base, k', o');
    SameRoutes4(k, cfg, o, base, k', o');
    SameRoutes6(k, cfg, o, base, k', o');
  }

  lemma SameRoutes6(k: Tables, cfg: Config, o: Owned, base: Tables, k': Tables, o': Owned)
    requires Agrees(k, cfg, o, base) && k'.routes6 == k.routes6 && o'.r6 == o.r6
    ensures forall q :: RouteAt(k'.routes6, q) == ExpectRoute6(cfg, o', base.routes6, q)
  {
    forall q ensures RouteAt(k'.routes6, q) == ExpectRoute6(cfg, o', base.routes6, q) {
      assert RouteAt(k.routes6, q) == ExpectRoute6(cfg, o, base.routes6, q);
    }
  }

  /** The new record differs at most in what IPv6 rules it asks for. */
  ghost predicate SameElsewhere6(cfg: Config, o: Owned, o': Owned) {
    && o'.on4 == o.on4 && o'.r6 == o.r6
    && forall u :: 0 <= u < |cfg.uplinks| ==>
         ShOf(cfg, o', u).gw4 == ShOf(cfg, o, u).gw4 && ShOf(cfg, o', u).lo4 == ShOf(cfg, o, u).lo4
  }

  function With(o: Owned, name: string, i: Installed): Owned { o.(sh := o.sh[name := i]) }

  ghost predicate Named(cfg: Config, u: nat) {
    u < |cfg.uplinks| && NamesExist(cfg, u) && NamesDistinct(cfg, u)
  }

  /** `rs'` is `rs` with the rules of priority `p` replaced. */
  ghost predicate Rewrites(rs: Rules, rs': Rules, p: int, want: seq<Rule>) {
    Normal(rs') && At(rs', p) == want && forall q :: q != p ==> At(rs', q) == At(rs, q)
  }

  /** A record of one uplink that changes only what one IPv6 slot asks for. */
  lemma SetRules6(k: Tables, cfg: Config, o: Owned, base: Tables, u: nat, i: Installed, s: Slot6, k': Tables)
    requires Accepted(cfg) && Agrees(k, cfg, o, base) && u < |cfg.uplinks| && Valid6(cfg, s) && !s.Internal6? && s.u == u
    requires var j := ShOf(cfg, o, u); i.gw4 == j.gw4 && i.lo4 == j.lo4
    requires var o' := With(o, cfg.uplinks[u].name, i);
             && k' == k.(rules6 := k'.rules6) && Rewrites(k.rules6, k'.rules6, Prio6(cfg, s), Want6(cfg, o', s))
             && forall t :: Valid6(cfg, t) && t != s && !t.Internal6? && t.u == u ==> Want6(cfg, o', t) == Want6(cfg, o, t)
    ensures Agrees(k', cfg, With(o, cfg.uplinks[u].name, i), base)
  {
    var o' := With(o, cfg.uplinks[u].name, i);
    forall v | 0 <= v < |cfg.uplinks| && v != u ensures ShOf(cfg, o', v) == ShOf(cfg, o, v) {
    }
    forall t | Valid6(cfg, t) && t != s ensures Want6(cfg, o', t) == Want6(cfg, o, t) {
      if !t.Internal6? && t.u != u {
        assert ShOf(cfg, o', t.u) == ShOf(cfg, o, t.u);
      }
    }
    SetSlot6(k, cfg, o, base, s, k', o');
  }

  lemma SetLo6(k: Tables, cfg: Config, o: Owned, base: Tables, u: nat, p: Option<Prefix>, k': Tables)
    requires Accepted(cfg) && Agrees(k, cfg, o, base) && u < |cfg.uplinks|
    requires k' == k.(rules6 := k'.rules6)
             && Rewrites(k.rules6, k'.rules6, Ipv6LoToUplink(cfg, u), LoRules(p, UplinkTable(cfg, u)))
    ensures Agrees(k', cfg, With(o, cfg.uplinks[u].name, ShOf(cfg, o, u).(lo6 := p)), base)
  {
    SetRules6(k, cfg, o, base, u, ShOf(cfg, o, u).(lo6 := p), Slot6.Lo6(u), k');
  }

  lemma SetPdLo6(k: Tables, cfg: Config, o: Owned, base: Tables, u: nat, p: Option<Prefix>, k': Tables)
    requires Accepted(cfg) && Agrees(k, cfg, o, base) && u < |cfg.uplinks|
    requires k' == k.(rules6 := k'.rules6)
             && Rewrites(k.rules6, k'.rules6, Ipv6PdLoToUplink(cfg, u), LoRules(p, UplinkTable(cfg, u)))
    ensures Agrees(k', cfg, With(o, cfg.uplinks[u].name, ShOf(cfg, o, u).(pdLo6 := p)), base)
  {
    SetRules6(k, cfg, o, base, u, ShOf(cfg, o, u).(pdLo6 := p), Slot6.PdLo6(u), k');
  }

  /** Needs distinct names: the record is keyed by name, the kernel by priority. */
  lemma SetFwd(k: Tables, cfg: Config, o: Owned, base: Tables, u: nat, n: nat, fwd: map<string, Option<Prefix>>, k': Tables)
    requires Accepted(cfg) && Agrees(k, cfg, o, base) && Named(cfg, u) && n < |cfg.networks|
    requires forall s :: s != Mv(cfg, u, n) ==>
               (s in fwd <==> s in ShOf(cfg, o, u).fwd) && (s in fwd ==> fwd[s] == ShOf(cfg, o, u).fwd[s])
    requires var mv := Mv(cfg, u, n);
             && k' == k.(rules6 := k'.rules6)
             && Rewrites(k.rules6, k'.rules6, Ipv6FwdToUplink(cfg, u, n),
                         if mv in fwd then [FwdRule(mv, UplinkTable(cfg, u), fwd[mv])] else [])
    ensures Agrees(k', cfg, With(o, cfg.uplinks[u].name, ShOf(cfg, o, u).(fwd := fwd)), base)
  {
    SetRules6(k, cfg, o, base, u, ShOf(cfg, o, u).(fwd := fwd), Fwd6(u, n), k');
  }

  lemma SetProhibit(k: Tables, cfg: Config, o: Owned, base: Tables, u: nat, n: nat, prohibit: set<string>, k': Tables)
    requires Accepted(cfg) && Agrees(k, cfg, o, base) && Named(cfg, u) && n < |cfg.networks|
    requires forall s :: s != Mv(cfg, u, n) ==> (s in prohibit <==> s in ShOf(cfg, o, u).prohibit)
    requires var mv := Mv(cfg, u, n);
             && k' == k.(rules6 := k'.rules6)
             && Rewrites(k.rules6, k'.rules6, Ipv6RejectWrongPdSrc(cfg, u, n), if mv in prohibit then [ProhibitRule(mv)] else [])
    ensures Agrees(k', cfg, With(o, cfg.uplinks[u].name, ShOf(cfg, o, u).(prohibit := prohibit)), base)
  {
    SetRules6(k, cfg, o, base, u, ShOf(cfg, o, u).(prohibit := prohibit), Reject6(u, n), k');
  }

  lemma SetOn6(k: Tables, cfg: Config, o: Owned, base: Tables, on: bool, k': Tables)
    requires Agrees(k, cfg, o, base)
    requires k' == k.(rules6 := k'.rules6)
             && Rewrites(k.rules6, k'.rules6, Ipv6InternalTraffic(cfg), if on then [MainRule()] else [])
    ensures Agrees(k', cfg, o.(on6 := on), base)
  {
    var o' := o.(on6 := on);
    forall t | Valid6(cfg, t) && t != Internal6 ensures Want6(cfg, o', t) == Want6(cfg, o, t) {
      if !t.Internal6? {
        assert ShOf(cfg, o', t.u) == ShOf(cfg, o, t.u);
      }
    }
    SetSlot6(k, cfg, o, base, Internal6, k', o');
  }

  lemma SetOn4(k: Tables, cfg: Config, o: Owned, base: Tables, on: bool, mid: Rules, k': Tables)
    requires Agrees(k, cfg, o, base)
    requires k' == k.(rules4 := k'.rules4)
    requires Rewrites(k.rules4, mid, Ipv4InternalTraffic(cfg), if on then [MainRule()] else [])
    requires Rewrites(mid, k'.rules4, Ipv4FwdToWan(cfg), if on then [TableRule(Ipv4Table(cfg))] else [])
    ensures Agrees(k', cfg, o.(on4 := on), base)
  {
    var o' := o.(on4 := on);
    SlotOfPrio4(cfg, Internal4);
    SlotOfPrio4(cfg, FwdToWan4);
    forall p ensures At(k'.rules4, p) == Expect4(cfg, o', base.rules4, p) {
      assert At(k.rules4, p) == Expect4(cfg, o, base.rules4, p);
      if Slot4At(cfg, p).Some? && Slot4At(cfg, p).value.Lo4? {
        assert ShOf(cfg, o', Slot4At(cfg, p).value.u) == ShOf(cfg, o, Slot4At(cfg, p).value.u);
      }
    }
    SameRules6(k, cfg, o, base, k', o');
    SameRoutes4(k, cfg, o, base, k', o');
  }

  lemma SetLo4(k: Tables, cfg: Config, o: Owned, base: Tables, u: nat, addr: Option<string>, k': Tables)
    requires Accepted(cfg) && Agrees(k, cfg, o, base) && u < |cfg.uplinks|
    requires k' == k.(rules4 := k'.rules4)
    requires Rewrites(k.rules4, k'.rules4, Ipv4LoToUplink(cfg, u),
                      if addr.Some? then [LoRule4(addr.value, UplinkTable(cfg, u))] else [])
    ensures Agrees(k', cfg, With(o, cfg.uplinks[u].name, ShOf(cfg, o, u).(lo4 := addr)), base)
  {
    var o' := With(o, cfg.uplinks[u].name, ShOf(cfg, o, u).(lo4 := addr));
    OthersKept(cfg, o, u, ShOf(cfg, o, u).(lo4 := addr));
    forall p ensures At(k'.rules4, p) == Expect4(cfg, o', base.rules4, p) {
      Lo4Elsewhere(k, cfg, o, base, u, o', k'.rules4, p);
    }
    SameRules6(k, cfg, o, base, k', o');
    SameRoutes4(k, cfg, o, base, k', o');
  }

  lemma Lo4Elsewhere(k: Tables, cfg: Config, o: Owned, base: Tables, u: nat, o': Owned, rs: Rules, p: int)
    requires Accepted(cfg) && Agrees(k, cfg, o, base) && u < |cfg.uplinks| && o'.on4 == o.on4
    requires forall v :: 0 <= v < |cfg.uplinks| && v != u ==> ShOf(cfg, o', v) == ShOf(cfg, o, v)
    requires At(rs, p) == if p == Ipv4LoToUplink(cfg, u) then Want4(cfg, o', Slot4.Lo4(u)) else At(k.rules4, p)
    ensures At(rs, p) == Expect4(cfg, o', base.rules4, p)
  {
    SlotOfPrio4(cfg, Slot4.Lo4(u));
    assert At(k.rules4, p) == Expect4(cfg, o, base.rules4, p);
  }

  /** Unique names: a new record of one uplink leaves every other uplink's record alone. */
  lemma OthersKept(cfg: Config, o: Owned, u: nat, i: Installed)
    requires Accepted(cfg) && u < |cfg.uplinks|
    ensures ShOf(cfg, With(o, cfg.uplinks[u].name, i), u) == i
    ensures forall v :: 0 <= v < |cfg.uplinks| && v != u ==> ShOf(cfg, With(o, cfg.uplinks[u].name, i), v) == ShOf(cfg, o, v)
  {
  }

  lemma SameRules6(k: Tables, cfg: Config, o: Owned, base: Tables, k': Tables, o': Owned)
    requires Agrees(k, cfg, o, base) && k'.rules6 == k.rules6 && o'.on6 == o.on6
    requires forall u :: 0 <= u < |cfg.uplinks| ==>
               var i, j := ShOf(cfg, o', u), ShOf(cfg, o, u);
               i.lo6 == j.lo6 && i.pdLo6 == j.pdLo6 && i.fwd == j.fwd && i.prohibit == j.prohibit
    ensures forall p :: At(k'.rules6, p) == Expect6(cfg, o', base.rules6, p)
  {
    forall p ensures At(k'.rules6, p) == Expect6(cfg, o', base.rules6, p) {
      assert At(k.rules6, p) == Expect6(cfg, o, base.rules6, p);
    }
  }

  lemma SameRoutes4(k: Tables, cfg: Config, o: Owned, base: Tables, k': Tables, o': Owned)
    requires Agrees(k, cfg, o, base) && k'.routes4 == k.routes4
    requires forall u :: 0 <= u < |cfg.uplinks| ==> ShOf(cfg, o', u).gw4 == ShOf(cfg, o, u).gw4
    ensures forall q :: RouteAt(k'.routes4, q) == ExpectRoute4(cfg, o', base.routes4, q)
  {
    forall q ensures RouteAt(k'.routes4, q) == ExpectRoute4(cfg, o', base.routes4, q) {
      assert RouteAt(k.routes4, q) == ExpectRoute4(cfg, o, base.routes4, q);
    }
  }

  lemma SameRules4(k: Tables, cfg: Config, o: Owned, base: Tables, k': Tables, o': Owned)
    requires Agrees(k, cfg, o, base) && k'.rules4 == k.rules4 && o'.on4 == o.on4
    requires forall u :: 0 <= u < |cfg.uplinks| ==> ShOf(cfg, o', u).lo4 == ShOf(cfg, o, u).lo4
    ensures forall p :: At(k'.rules4, p) == Expect4(cfg, o', base.rules4, p)
  {
    forall p ensures At(k'.rules4, p) == Expect4(cfg, o', base.rules4, p) {
      assert At(k.rules4, p) == Expect4(cfg, o, base.rules4, p);
    }
  }

  // ---------------------------------------------------------------- routes

  /** Unique interfaces: deletion by device in a table of ours hits exactly the uplink's own key. */
  lemma DelOwnRoute4(m: Routes, cfg: Config, u: nat, key: (int, int))
    requires Accepted(cfg) && OwnsKey4(cfg, u, key) && OurTable4(cfg, key.0)
    requires forall q :: q in m && q.0 == key.0 && m[q].dev == cfg.uplinks[u].iface ==> q == key
    requires key in m ==> m[key].dev == cfg.uplinks[u].iface
    ensures DelRoute(m, key.0, cfg.uplinks[u].iface) == m - {key}
  {
    if key in m {
      assert BestVia(m, key, key.0, cfg.uplinks[u].iface);
    }
  }

  /** The two routes of an uplink are replaced or deleted together. */
  lemma SetGw4(k: Tables, cfg: Config, o: Owned, base: Tables, u: nat, gw: Option<string>, k': Tables)
    requires Accepted(cfg) && Agrees(k, cfg, o, base) && u < |cfg.uplinks|
    requires var up := cfg.uplinks[u];
             var shared, own := (Ipv4Table(cfg), up.metric), (UplinkTable(cfg, u), 0);
             k' == k.(routes4 := if gw.Some? then
                                   k.routes4[shared := Route(gw.value, up.iface, None)][own := Route(gw.value, up.iface, None)]
                                 else DelRoute(DelRoute(k.routes4, shared.0, up.iface), own.0, up.iface))
    ensures Agrees(k', cfg, With(o, cfg.uplinks[u].name, ShOf(cfg, o, u).(gw4 := gw)), base)
  {
    hide Accepted, OwnsKey4, DelRoute, Expect4, Expect6, ExpectRoute4;
    var o' := With(o, cfg.uplinks[u].name, ShOf(cfg, o, u).(gw4 := gw));
    OthersKept(cfg, o, u, ShOf(cfg, o, u).(gw4 := gw));
    Gw4Routes(k, cfg, o, base, u, gw, k'.routes4);
    SameRules6(k, cfg, o, base, k', o');
    SameRules4(k, cfg, o, base, k', o');
    SameRoutes6(k, cfg, o, base, k', o');
  }

  /** Every route key but the uplink's two is left alone, and those two hold what the new record wants. */
  lemma Gw4Routes(k: Tables, cfg: Config, o: Owned, base: Tables, u: nat, gw: Option<string>, m: Routes)
    requires Accepted(cfg) && Agrees(k, cfg, o, base) && u < |cfg.uplinks|
    requires var up := cfg.uplinks[u];
             var shared, own := (Ipv4Table(cfg), up.metric), (UplinkTable(cfg, u), 0);
             m == if gw.Some? then k.routes4[shared := Route(gw.value, up.iface, None)][own := Route(gw.value, up.iface, None)]
                  else DelRoute(DelRoute(k.routes4, shared.0, up.iface), own.0, up.iface)
    ensures forall q :: RouteAt(m, q) == ExpectRoute4(cfg, With(o, cfg.uplinks[u].name, ShOf(cfg, o, u).(gw4 := gw)), base.routes4, q)
  {
    hide Expect4, Expect6, ExpectRoute4, ExpectRoute6, DelRoute;
    var shared, own := (Ipv4Table(cfg), cfg.uplinks[u].metric), (UplinkTable(cfg, u), 0);
    var o' := With(o, cfg.uplinks[u].name, ShOf(cfg, o, u).(gw4 := gw));
    OthersKept(cfg, o, u, ShOf(cfg, o, u).(gw4 := gw));
    OwnerOfKey4(cfg, u, shared);
    OwnerOfKey4(cfg, u, own);
    if gw.None? {
      OwnDevice4(k, cfg, o, base, u);
      DelOwnRoute4(k.routes4, cfg, u, shared);
      DelOwnRoute4(k.routes4 - {shared}, cfg, u, own);
    }
    forall q ensures RouteAt(m, q) == ExpectRoute4(cfg, o', base.routes4, q) {
      KeyOfUplink(k, cfg, o, base, u, o', m, q);
    }
  }

  lemma KeyOfUplink(k: Tables, cfg: Config, o: Owned, base: Tables, u: nat, o': Owned, m: Routes, q: (int, int))
    requires Accepted(cfg) && Agrees(k, cfg, o, base) && u < |cfg.uplinks|
    requires forall v :: 0 <= v < |cfg.uplinks| && v != u ==> ShOf(cfg, o', v) == ShOf(cfg, o, v)
    requires RouteAt(m, q) == if OwnsKey4(cfg, u, q) then WantRoute4(cfg, o', u) else RouteAt(k.routes4, q)
    ensures RouteAt(m, q) == ExpectRoute4(cfg, o', base.routes4, q)
  {
    assert RouteAt(k.routes4, q) == ExpectRoute4(cfg, o, base.routes4, q);
    if OwnsKey4(cfg, u, q) {
      OwnerOfKey4(cfg, u, q);
    }
  }

  lemma OwnDevice4(k: Tables, cfg: Config, o: Owned, base: Tables, u: nat)
    requires Accepted(cfg) && Agrees(k, cfg, o, base) && u < |cfg.uplinks|
    ensures forall q :: q in k.routes4 && OurTable4(cfg, q.0) && k.routes4[q].dev == cfg.uplinks[u].iface ==> OwnsKey4(cfg, u, q)
    ensures forall q :: q in k.routes4 && OwnsKey4(cfg, u, q) ==> k.routes4[q].dev == cfg.uplinks[u].iface
  {
    forall q | q in k.routes4 && OurTable4(cfg, q.0) && k.routes4[q].dev == cfg.uplinks[u].iface ensures OwnsKey4(cfg, u, q) {
      assert RouteAt(k.routes4, q) == ExpectRoute4(cfg, o, base.routes4, q);
    }
    forall q | q in k.routes4 && OwnsKey4(cfg, u, q) ensures k.routes4[q].dev == cfg.uplinks[u].iface {
      assert RouteAt(k.routes4, q) == ExpectRoute4(cfg, o, base.routes4, q);
      OwnerOfKey4(cfg, u, q);
    }
  }

  /** What the daemon believes about its IPv6 routes: a route it holds is flagged and leaves by its uplink. */
  ghost predicate Flagged6(cfg: Config, o: Owned) {
    forall u :: 0 <= u < |cfg.uplinks| && GetOr(o.r6, cfg.uplinks[u].name, None).Some? ==>
      ShOf(cfg, o, u).route6 && o.r6[cfg.uplinks[u].name].value.dev == cfg.uplinks[u].iface
  }

  function WithRoute6(o: Owned, name: string, r: Option<Route>, i: Installed): Owned {
    With(o, name, i.(route6 := r.Some?)).(r6 := o.r6[name := r])
  }

  lemma SetRoute6(k: Tables, cfg: Config, o: Owned, base: Tables, u: nat, r: Option<Route>, k': Tables)
    requires Accepted(cfg) && Agrees(k, cfg, o, base) && u < |cfg.uplinks| && Flagged6(cfg, o)
    requires var key := (UplinkTable(cfg, u), DEFAULT_METRIC6);
             k' == k.(routes6 := if r.Some? then k.routes6[key := r.value]
                                 else DelRoute(k.routes6, key.0, cfg.uplinks[u].iface))
    ensures Agrees(k', cfg, WithRoute6(o, cfg.uplinks[u].name, r, ShOf(cfg, o, u)), base)
  {
    var name, key := cfg.uplinks[u].name, (UplinkTable(cfg, u), DEFAULT_METRIC6);
    var o' := WithRoute6(o, name, r, ShOf(cfg, o, u));
    forall v | 0 <= v < |cfg.uplinks|
      ensures ShOf(cfg, o', v) == if v == u then ShOf(cfg, o, u).(route6 := r.Some?) else ShOf(cfg, o, v)
    {
    }
    if r.None? {
      DelRoute6(k, cfg, o, base, u);
    }
    forall q ensures RouteAt(k'.routes6, q) == ExpectRoute6(cfg, o', base.routes6, q) {
      assert RouteAt(k.routes6, q) == ExpectRoute6(cfg, o, base.routes6, q);
    }
    SameRules6(k, cfg, o, base, k', o');
    SameRules4(k, cfg, o, base, k', o');
    SameRoutes4(k, cfg, o, base, k', o');
  }

  lemma DelRoute6(k: Tables, cfg: Config, o: Owned, base: Tables, u: nat)
    requires Accepted(cfg) && Agrees(k, cfg, o, base) && u < |cfg.uplinks| && Flagged6(cfg, o)
    ensures var key := (UplinkTable(cfg, u), DEFAULT_METRIC6);
            DelRoute(k.routes6, key.0, cfg.uplinks[u].iface) == k.routes6 - {key}
  {
    var key := (UplinkTable(cfg, u), DEFAULT_METRIC6);
    forall q | q in k.routes6 && q.0 == key.0 ensures q == key && k.routes6[q].dev == cfg.uplinks[u].iface {
      assert RouteAt(k.routes6, q) == ExpectRoute6(cfg, o, base.routes6, q);
    }
    if key in k.routes6 {
      assert BestVia(k.routes6, key, key.0, cfg.uplinks[u].iface);
    }
  }

  function Keys6(cfg: Config, gone: set<string>): set<(int, int)> {
    set u | 0 <= u < |cfg.uplinks| && cfg.uplinks[u].name in gone :: (UplinkTable(cfg, u), DEFAULT_METRIC6)
  }

  function ExpireOwned(o: Owned, gone: set<string>): Owned {
    o.(r6 := map s | s in o.r6 :: if s in gone && o.r6[s].Some? && o.r6[s].value.expires.Some? then None else o.r6[s])
  }

  /** A route that carries an expiry may vanish without the record noticing. */
  lemma ExpireRoutes(k: Tables, cfg: Config, o: Owned, base: Tables, gone: set<string>, k': Tables)
    requires Accepted(cfg) && Agrees(k, cfg, o, base)
    requires k' == k.(routes6 := Expired(k.routes6, Keys6(cfg, gone)))
    ensures Agrees(k', cfg, ExpireOwned(o, gone), base)
  {
    var o' := ExpireOwned(o, gone);
    forall v | 0 <= v < |cfg.uplinks| ensures ShOf(cfg, o', v) == ShOf(cfg, o, v) {
    }
    forall q ensures RouteAt(k'.routes6, q) == ExpectRoute6(cfg, o', base.routes6, q) {
      assert RouteAt(k.routes6, q) == ExpectRoute6(cfg, o, base.routes6, q);
      if OurTable6(cfg, q.0) && q.1 == DEFAULT_METRIC6 {
        var u := q.0 - cfg.tableStart - 1;
        assert q == (UplinkTable(cfg, u), DEFAULT_METRIC6);
      }
    }
    SameRules6(k, cfg, o, base, k', o');
    SameRules4(k, cfg, o, base, k', o');
    SameRoutes4(k, cfg, o, base, k', o');
  }

  lemma FlagsExpire(cfg: Config, o: Owned, gone: set<string>)
    requires Flagged6(cfg, o)
    ensures Flagged6(cfg, ExpireOwned(o, gone))
  {
  }

  // ---------------------------------------------------------------- nothing installed

  /** An empty record stands for exactly the kernel as it was found, so teardown and start need no other link. */
  lemma NothingIsBase(k: Tables, cfg: Config, base: Tables)
    requires Accepted(cfg) && Free(cfg, base)
    ensures Agrees(k, cfg, NothingOwned(cfg), base) <==> k == base
  {
    var o := NothingOwned(cfg);
    forall u | 0 <= u < |cfg.uplinks| ensures ShOf(cfg, o, u) == NOTHING && GetOr(o.r6, cfg.uplinks[u].name, None) == None {
    }
    forall p ensures Expect4(cfg, o, base.rules4, p) == At(base.rules4, p) {
      NothingAt4(cfg, base, p);
    }
    forall p ensures Expect6(cfg, o, base.rules6, p) == At(base.rules6, p) {
      NothingAt6(cfg, base, p);
    }
    forall q ensures ExpectRoute4(cfg, o, base.routes4, q) == RouteAt(base.routes4, q) {
    }
    forall q ensures ExpectRoute6(cfg, o, base.routes6, q) == RouteAt(base.routes6, q) {
    }
    if Agrees(k, cfg, o, base) {
      SameRules(k.rules4, base.rules4);
      SameRules(k.rules6, base.rules6);
      SameRoutes(k.routes4, base.routes4);
      SameRoutes(k.routes6, base.routes6);
    }
  }

  lemma NothingAt4(cfg: Config, base: Tables, p: int)
    requires Accepted(cfg) && Free(cfg, base)
    ensures Expect4(cfg, NothingOwned(cfg), base.rules4, p) == At(base.rules4, p)
  {
    if Slot4At(cfg, p).Some? {
      assert InBlock4(cfg, p);
    }
  }

  lemma NothingAt6(cfg: Config, base: Tables, p: int)
    requires Accepted(cfg) && Free(cfg, base)
    ensures Expect6(cfg, NothingOwned(cfg), base.rules6, p) == At(base.rules6, p)
  {
    if Slot6At(cfg, p).Some? {
      Bounds6(cfg, Slot6At(cfg, p).value);
    }
  }

  lemma SameRules(a: Rules, b: Rules)
    requires Normal(a) && Normal(b) && forall p :: At(a, p) == At(b, p)
    ensures a == b
  {
    forall p ensures p in a <==> p in b {
      assert At(a, p) == At(b, p);
    }
    forall p | p in a ensures a[p] == b[p] {
      assert At(a, p) == At(b, p);
    }
  }

  lemma SameRoutes(a: Routes, b: Routes)
    requires forall q :: RouteAt(a, q) == RouteAt(b, q)
    ensures a == b
  {
    forall q ensures q in a <==> q in b {
      assert RouteAt(a, q) == RouteAt(b, q);
    }
    forall q | q in a ensures a[q] == b[q] {
      assert RouteAt(a, q) == RouteAt(b, q);
    }
  }

  /** The record determines the kernel: two kernels that agree with it over the same base are equal. */
  lemma AgreementIsExact(k: Tables, l: Tables, cfg: Config, o: Owned, base: Tables)
    requires Agrees(k, cfg, o, base) && Agrees(l, cfg, o, base)
    ensures k == l
  {
    forall p ensures At(k.rules4, p) == At(l.rules4, p) && At(k.rules6, p) == At(l.rules6, p) {
      assert At(k.rules4, p) == Expect4(cfg, o, base.rules4, p) && At(k.rules6, p) == Expect6(cfg, o, base.rules6, p);
    }
    forall q ensures RouteAt(k.routes4, q) == RouteAt(l.routes4, q) && RouteAt(k.routes6, q) == RouteAt(l.routes6, q) {
      assert RouteAt(k.routes4, q) == ExpectRoute4(cfg, o, base.routes4, q);
      assert RouteAt(k.routes6, q) == ExpectRoute6(cfg, o, base.routes6, q);
    }
    SameRules(k.rules4, l.rules4);
    SameRules(k.rules6, l.rules6);
    SameRoutes(k.routes4, l.routes4);
    SameRoutes(k.routes6, l.routes6);
  }

  // ---------------------------------------------------------------- commands the daemon issues for one slot

  lemma SwappedRewrites(rs: Rules, p: int, del: bool, add: Option<Rule>)
    requires Normal(rs) && |At(rs, p)| <= 1 && (del || At(rs, p) == [])
    ensures Rewrites(rs, Swapped(rs, p, del, add), p, if add.Some? then [add.value] else [])
  {
  }

  /** The rules of a slot are the ones at its priority. */
  lemma RulesOfSlot6(k: Tables, cfg: Config, o: Owned, base: Tables, s: Slot6)
    requires Agrees(k, cfg, o, base) && Valid6(cfg, s)
    ensures At(k.rules6, Prio6(cfg, s)) == Want6(cfg, o, s) && |Want6(cfg, o, s)| <= 1
  {
    SlotOfPrio6(cfg, s);
    assert At(k.rules6, Prio6(cfg, s)) == Expect6(cfg, o, base.rules6, Prio6(cfg, s));
  }

  function LoRuleOf(p: Option<Prefix>, table: int): Option<Rule> {
    if p.Some? then Some(LoRule6(p.value, table)) else None
  }

  lemma SwapLo6(k: Tables, cfg: Config, o: Owned, base: Tables, u: nat, p: Option<Prefix>, k': Tables)
    requires Accepted(cfg) && Agrees(k, cfg, o, base) && u < |cfg.uplinks|
    requires k' == k.(rules6 := Swapped(k.rules6, Ipv6LoToUplink(cfg, u), ShOf(cfg, o, u).lo6.Some?, LoRuleOf(p, UplinkTable(cfg, u))))
    ensures Agrees(k', cfg, With(o, cfg.uplinks[u].name, ShOf(cfg, o, u).(lo6 := p)), base)
  {
    hide Accepted, Agrees, Swapped, Rewrites;
    RulesOfSlot6(k, cfg, o, base, Slot6.Lo6(u));
    AgreesNormal(k, cfg, o, base);
    SwappedRewrites(k.rules6, Ipv6LoToUplink(cfg, u), ShOf(cfg, o, u).lo6.Some?, LoRuleOf(p, UplinkTable(cfg, u)));
    SetLo6(k, cfg, o, base, u, p, k');
  }

  lemma AgreesNormal(k: Tables, cfg: Config, o: Owned, base: Tables)
    requires Agrees(k, cfg, o, base)
    ensures Normal(k.rules4) && Normal(k.rules6)
  {
  }

  lemma SwapPdLo6(k: Tables, cfg: Config, o: Owned, base: Tables, u: nat, p: Option<Prefix>, k': Tables)
    requires Accepted(cfg) && Agrees(k, cfg, o, base) && u < |cfg.uplinks|
    requires k' == k.(rules6 := Swapped(k.rules6, Ipv6PdLoToUplink(cfg, u), ShOf(cfg, o, u).pdLo6.Some?, LoRuleOf(p, UplinkTable(cfg, u))))
    ensures Agrees(k', cfg, With(o, cfg.uplinks[u].name, ShOf(cfg, o, u).(pdLo6 := p)), base)
  {
    hide Accepted, Agrees, Swapped, Rewrites;
    RulesOfSlot6(k, cfg, o, base, Slot6.PdLo6(u));
    AgreesNormal(k, cfg, o, base);
    SwappedRewrites(k.rules6, Ipv6PdLoToUplink(cfg, u), ShOf(cfg, o, u).pdLo6.Some?, LoRuleOf(p, UplinkTable(cfg, u)));
    SetPdLo6(k, cfg, o, base, u, p, k');
  }

  lemma SwapLo4(k: Tables, cfg: Config, o: Owned, base: Tables, u: nat, addr: Option<string>, k': Tables)
    requires Accepted(cfg) && Agrees(k, cfg, o, base) && u < |cfg.uplinks|
    requires var rule := if addr.Some? then Some(LoRule4(addr.value, UplinkTable(cfg, u))) else None;
             k' == k.(rules4 := Swapped(k.rules4, Ipv4LoToUplink(cfg, u), ShOf(cfg, o, u).lo4.Some?, rule))
    ensures Agrees(k', cfg, With(o, cfg.uplinks[u].name, ShOf(cfg, o, u).(lo4 := addr)), base)
  {
    hide Accepted, Swapped, Rewrites, UplinksDistinct;
    SlotOfPrio4(cfg, Slot4.Lo4(u));
    assert At(k.rules4, Ipv4LoToUplink(cfg, u)) == Expect4(cfg, o, base.rules4, Ipv4LoToUplink(cfg, u));
    SwappedRewrites(k.rules4, Ipv4LoToUplink(cfg, u), ShOf(cfg, o, u).lo4.Some?,
                    if addr.Some? then Some(LoRule4(addr.value, UplinkTable(cfg, u))) else None);
    SetLo4(k, cfg, o, base, u, addr, k');
  }

  /** An accept rule is put in place of what is there (`add`), or taken out. */
  lemma SwapFwd(k: Tables, cfg: Config, o: Owned, base: Tables, u: nat, n: nat, del: bool, add: Option<Option<Prefix>>, k': Tables)
    requires Accepted(cfg) && Agrees(k, cfg, o, base) && Named(cfg, u) && n < |cfg.networks|
    requires del || Mv(cfg, u, n) !in ShOf(cfg, o, u).fwd
    requires var rule := if add.Some? then Some(FwdRule(Mv(cfg, u, n), UplinkTable(cfg, u), add.value)) else None;
             k' == k.(rules6 := Swapped(k.rules6, Ipv6FwdToUplink(cfg, u, n), del, rule))
    ensures var mv, fwd := Mv(cfg, u, n), ShOf(cfg, o, u).fwd;
            Agrees(k', cfg, With(o, cfg.uplinks[u].name,
                                 ShOf(cfg, o, u).(fwd := if add.Some? then fwd[mv := add.value] else fwd - {mv})), base)
  {
    hide Accepted, Agrees, Swapped, Rewrites, NamesExist, NamesDistinct, MacvlanName;
    var mv, fwd := Mv(cfg, u, n), ShOf(cfg, o, u).fwd;
    RulesOfSlot6(k, cfg, o, base, Fwd6(u, n));
    AgreesNormal(k, cfg, o, base);
    SwappedRewrites(k.rules6, Ipv6FwdToUplink(cfg, u, n), del,
                    if add.Some? then Some(FwdRule(mv, UplinkTable(cfg, u), add.value)) else None);
    SetFwd(k, cfg, o, base, u, n, if add.Some? then fwd[mv := add.value] else fwd - {mv}, k');
  }

  lemma SwapProhibit(k: Tables, cfg: Config, o: Owned, base: Tables, u: nat, n: nat, on: bool, k': Tables)
    requires Accepted(cfg) && Agrees(k, cfg, o, base) && Named(cfg, u) && n < |cfg.networks|
    requires on <==> Mv(cfg, u, n) !in ShOf(cfg, o, u).prohibit
    requires k' == k.(rules6 := Swapped(k.rules6, Ipv6RejectWrongPdSrc(cfg, u, n), !on,
                                        if on then Some(ProhibitRule(Mv(cfg, u, n))) else None))
    ensures var mv, set' := Mv(cfg, u, n), ShOf(cfg, o, u).prohibit;
            Agrees(k', cfg, With(o, cfg.uplinks[u].name,
                                 ShOf(cfg, o, u).(prohibit := if on then set' + {mv} else set' - {mv})), base)
  {
    hide Accepted, Agrees, Swapped, Rewrites, NamesExist, NamesDistinct, MacvlanName;
    var mv, p := Mv(cfg, u, n), ShOf(cfg, o, u).prohibit;
    RulesOfSlot6(k, cfg, o, base, Reject6(u, n));
    AgreesNormal(k, cfg, o, base);
    SwappedRewrites(k.rules6, Ipv6RejectWrongPdSrc(cfg, u, n), !on, if on then Some(ProhibitRule(mv)) else None);
    SetProhibit(k, cfg, o, base, u, n, if on then p + {mv} else p - {mv}, k');
  }

  lemma SwapOn6(k: Tables, cfg: Config, o: Owned, base: Tables, on: bool, k': Tables)
    requires Agrees(k, cfg, o, base) && o.on6 != on
    requires k' == k.(rules6 := Swapped(k.rules6, Ipv6InternalTraffic(cfg), !on, if on then Some(MainRule()) else None))
    ensures Agrees(k', cfg, o.(on6 := on), base)
  {
    hide Agrees, Swapped, Rewrites;
    RulesOfSlot6(k, cfg, o, base, Internal6);
    AgreesNormal(k, cfg, o, base);
    SwappedRewrites(k.rules6, Ipv6InternalTraffic(cfg), !on, if on then Some(MainRule()) else None);
    SetOn6(k, cfg, o, base, on, k');
  }

  lemma SwapOn4(k: Tables, cfg: Config, o: Owned, base: Tables, on: bool, k': Tables)
    requires Agrees(k, cfg, o, base) && o.on4 != on
    requires var mid := Swapped(k.rules4, Ipv4InternalTraffic(cfg), !on, if on then Some(MainRule()) else None);
             k' == k.(rules4 := Swapped(mid, Ipv4FwdToWan(cfg), !on, if on then Some(TableRule(Ipv4Table(cfg))) else None))
    ensures Agrees(k', cfg, o.(on4 := on), base)
  {
    hide Swapped;
    var mid := Swapped(k.rules4, Ipv4InternalTraffic(cfg), !on, if on then Some(MainRule()) else None);
    SlotOfPrio4(cfg, Internal4);
    SlotOfPrio4(cfg, FwdToWan4);
    assert At(k.rules4, Ipv4InternalTraffic(cfg)) == Expect4(cfg, o, base.rules4, Ipv4InternalTraffic(cfg));
    assert At(k.rules4, Ipv4FwdToWan(cfg)) == Expect4(cfg, o, base.rules4, Ipv4FwdToWan(cfg));
    SwappedRewrites(k.rules4, Ipv4InternalTraffic(cfg), !on, if on then Some(MainRule()) else None);
    SwappedRewrites(mid, Ipv4FwdToWan(cfg), !on, if on then Some(TableRule(Ipv4Table(cfg))) else None);
    SetOn4(k, cfg, o, base, on, mid, k');
  }

  lemma FlagsKept(cfg: Config, o: Owned, u: nat, i: Installed)
    requires Accepted(cfg) && Flagged6(cfg, o) && u < |cfg.uplinks| && i.route6 == ShOf(cfg, o, u).route6
    ensures Flagged6(cfg, With(o, cfg.uplinks[u].name, i))
  {
    OthersKept(cfg, o, u, i);
  }

  lemma FlagsSet(cfg: Config, o: Owned, u: nat, r: Option<Route>)
    requires Accepted(cfg) && Flagged6(cfg, o) && u < |cfg.uplinks|
    requires r.Some? ==> r.value.dev == cfg.uplinks[u].iface
    ensures Flagged6(cfg, WithRoute6(o, cfg.uplinks[u].name, r, ShOf(cfg, o, u)))
  {
    OthersKept(cfg, o, u, ShOf(cfg, o, u).(route6 := r.Some?));
  }

  lemma WithTwice(o: Owned, name: string, i: Installed, j: Installed)
    ensures With(With(o, name, i), name, j) == With(o, name, j)
  {
    assert o.sh[name := i][name := j] == o.sh[name := j];
  }
}
