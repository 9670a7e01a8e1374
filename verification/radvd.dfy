/** radvd.py and the radvd half of generator.py: advertised tiers, lifetimes and subnets. */
module Radvd {
  import opened Wrappers
  import opened Configuration
  import opened Naming
  import opened StateMachine
  import opened State

  /** Default Router Preferences of section 2.1 of RFC 4191. */
  datatype Preference = High | Medium | Low

  /** One advertising interface: router variables of section 6.2.1 of RFC 4861; no prefix stands for `::/64`. */
  datatype Block = Block(iface: string, preference: Preference, defaultLifetime: int, prefix: Option<nat>,
                         valid: int, preferred: int)

  datatype RadvdAction = Restart | Sighup | Write

  const INITIAL_VALID_LIFETIME := 7200
  const INITIAL_PREFERRED_LIFETIME := 1800
  const INITIAL_DEFAULT_LIFETIME := 1800
  const MAX_RTR_ADV_INTERVAL := 300
  const ADV_DEFAULT_LIFETIME_MAX := 9000

  type Healths = map<string, Health>

  function HealthOf(hs: Healths, name: string): Health { GetOr(hs, name, Health(FRESH, FRESH)) }

  predicate Up6(cfg: Config, hs: Healths, u: int) {
    0 <= u < |cfg.uplinks| && cfg.uplinks[u].ipv6Pd && HealthOf(hs, cfg.uplinks[u].name).v6.state.Up?
  }

  // ---------------------------------------------------------------- primary_ipv6_uplink

  /** The first UP PD uplink from index `u` on. */
  function FirstUp6(cfg: Config, hs: Healths, u: nat): (r: Option<nat>)
    ensures r.Some? ==> u <= r.value && Up6(cfg, hs, r.value) && forall v :: u <= v < r.value ==> !Up6(cfg, hs, v)
    ensures r.None? ==> forall v :: u <= v ==> !Up6(cfg, hs, v)
    decreases |cfg.uplinks| - u
  {
    if u >= |cfg.uplinks| then None
    else if Up6(cfg, hs, u) then Some(u)
    else FirstUp6(cfg, hs, u + 1)
  }

  function PrimaryIpv6(cfg: Config, hs: Healths): Option<nat> { FirstUp6(cfg, hs, 0) }

  function PreferenceFor(cfg: Config, hs: Healths, u: nat): Preference
    requires u < |cfg.uplinks|
  {
    if HealthOf(hs, cfg.uplinks[u].name).v6.state.Down? then Low
    else if PrimaryIpv6(cfg, hs) == Some(u) then High
    else Medium
  }

  function Distance(a: int, b: int): nat { if a < b then b - a else a - b }

  /** radvd takes 0 or a value from its range; what is not yet over becomes the nearest value of the range. */
  function Clamp(seconds: int): (r: int)
    ensures r == 0 || 300 <= r <= 9000
    ensures r == 0 <==> seconds <= 0
    ensures seconds > 0 ==>
              forall v :: 300 <= v <= 9000 ==> Distance(r, seconds) <= Distance(v, seconds)
  {
    if seconds <= 0 then 0
    else if seconds < MAX_RTR_ADV_INTERVAL then MAX_RTR_ADV_INTERVAL
    else if seconds > ADV_DEFAULT_LIFETIME_MAX then ADV_DEFAULT_LIFETIME_MAX
    else seconds
  }

  // ---------------------------------------------------------------- _derive_prefixes

  function Pow2(n: nat): (p: nat)
    ensures p >= 1
  {
    if n == 0 then 1 else 2 * Pow2(n - 1)
  }

  const ADDRESS_BITS := 128
  const SUBNET_BITS := 64
  const ADDRESS_SPACE := 0x1_0000_0000_0000_0000_0000_0000_0000_0000
  const SUBNET_SIZE := 0x1_0000_0000_0000_0000

  /** The largest multiple of `p` not above `x`: the host bits are cleared. */
  function AlignDown(x: nat, p: nat): (r: nat)
    requires p > 0
    ensures r <= x < r + p
  {
    x / p * p
  }

  /** The network `ip_network(prefix/length, strict=False)`, if the text and the length are acceptable. */
  function Network6(addr: Option<nat>, length: int): Option<nat> {
    if addr.None? || !(0 <= length <= ADDRESS_BITS) || addr.value >= ADDRESS_SPACE then None
    else Some(AlignDown(addr.value, Pow2(ADDRESS_BITS - length)))
  }

  function Subnet(network: nat, sla: nat): nat { network + sla * SUBNET_SIZE }

  /** The delegation is usable for this many networks. */
  predicate Derivable(cfg: Config, u: nat, addr: Option<nat>, length: int) {
    && Network6(addr, length).Some?
    && length <= SUBNET_BITS
    && |cfg.networks| <= Pow2(SUBNET_BITS - length)
    && forall n :: 0 <= n < |cfg.networks| ==> MacvlanName(cfg.networks[n].iface, u).Some?
  }

  /** Subnets by macvlan name; a later network of the same name would replace an earlier one. */
  function SubnetMap(names: seq<string>, network: nat): map<string, nat> {
    if names == [] then map[]
    else SubnetMap(names[..|names| - 1], network)[names[|names| - 1] := Subnet(network, |names| - 1)]
  }

  function DerivedPrefixes(cfg: Config, u: nat, addr: Option<nat>, pd: Option<PdState>): map<string, nat> {
    if pd.Some? && Derivable(cfg, u, addr, pd.value.length) then
      SubnetMap(MvNames(cfg, u), Network6(addr, pd.value.length).value)
    else map[]
  }

  method DerivePrefixes(cfg: Config, uplink: Uplink, addr: Option<nat>, pd: Option<PdState>) returns (r: map<string, nat>)
    requires |cfg.networks| > 0
    ensures r == DerivedPrefixes(cfg, uplink.index, addr, pd)
  {
    hide MacvlanName;
    if pd.None? { return map[]; }
    var delegated := Network6(addr, pd.value.length);
    if delegated.None? { return map[]; }
    var slaBits := 64 - pd.value.length;
    // for a negative number of bits the power is a fraction below one
    if slaBits < 0 || |cfg.networks| > Pow2(slaBits) { return map[]; }
    r := map[];
    ghost var names := MvNames(cfg, uplink.index);
    for sla := 0 to |cfg.networks|
      invariant r == SubnetMap(names[..sla], delegated.value)
      invariant forall n :: 0 <= n < sla ==> MacvlanName(cfg.networks[n].iface, uplink.index).Some?
    {
      var mv := MacvlanName(cfg.networks[sla].iface, uplink.index);
      if mv.None? { return map[]; }
      assert names[..sla + 1][..sla] == names[..sla] && names[sla] == mv.value;
      r := r[mv.value := Subnet(delegated.value, sla)];
    }
    assert names[..|cfg.networks|] == names;
  }

  lemma {:induction false} PowSum(a: nat, b: nat)
    ensures Pow2(a + b) == Pow2(a) * Pow2(b)
  {
    if a > 0 {
      PowSum(a - 1, b);
    }
  }

  lemma {:induction false} PowDouble(n: nat, m: nat)
    requires Pow2(n) == m
    ensures Pow2(2 * n) == m * m
  {
    PowSum(n, n);
  }

  lemma PowOne()
    ensures Pow2(1) == 2
  {
  }

  lemma SubnetSize()
    ensures Pow2(SUBNET_BITS) == SUBNET_SIZE
  {
    hide Pow2;
    PowOne();
    PowDouble(1, 2);
    PowDouble(2, 4);
    PowDouble(4, 16);
    PowDouble(8, 256);
    PowDouble(16, 65536);
    PowDouble(32, 4294967296);
  }

  /** The delegation holds exactly 2^(64-length) subnets. */
  lemma DelegationSize(length: nat)
    requires length <= SUBNET_BITS
    ensures Pow2(ADDRESS_BITS - length) == Pow2(SUBNET_BITS - length) * SUBNET_SIZE
  {
    PowSum(SUBNET_BITS - length, SUBNET_BITS);
    SubnetSize();
  }

  /** Each subnet is aligned to /64, lies inside the delegation, and is disjoint from the others. */
  lemma {:induction false} SubnetsFit(addr: nat, length: nat, sla: nat, other: nat)
    requires addr < ADDRESS_SPACE && length <= SUBNET_BITS
    requires sla < Pow2(SUBNET_BITS - length) && other < Pow2(SUBNET_BITS - length)
    ensures var net := Network6(Some(addr), length).value; var size := Pow2(ADDRESS_BITS - length);
            && Subnet(net, sla) % SUBNET_SIZE == 0
            && net <= Subnet(net, sla) && Subnet(net, sla) + SUBNET_SIZE <= net + size
            && net <= addr < net + size
            && (sla < other ==> Subnet(net, sla) + SUBNET_SIZE <= Subnet(net, other))
  {
    hide Pow2, AlignDown;
    var count, size := Pow2(SUBNET_BITS - length), Pow2(ADDRESS_BITS - length);
    DelegationSize(length);
    var q := AlignDownIsMultiple(addr, size);
    Scale(q, count, SUBNET_SIZE);
    Aligned(q * count, sla, SUBNET_SIZE);
    Room(sla, count, SUBNET_SIZE);
    if sla < other {
      Room(sla, other, SUBNET_SIZE);
    }
  }

  lemma AlignDownIsMultiple(x: nat, p: nat) returns (q: nat)
    requires p > 0
    ensures AlignDown(x, p) == q * p
  {
    q := x / p;
  }

  lemma Scale(q: nat, count: nat, size: nat)
    ensures q * (count * size) == q * count * size
  {
  }

  lemma Room(k: nat, j: nat, size: nat)
    requires k < j
    ensures k * size + size <= j * size
  {
    assert (k + 1) * size <= j * size;
  }

  lemma Aligned(first: nat, k: nat, size: nat)
    requires size > 0
    ensures (first * size + k * size) % size == 0
  {
    assert first * size + k * size == (first + k) * size;
    ModOfMultiple(first + k, size);
  }

  lemma ModOfMultiple(k: nat, size: nat)
    requires size > 0
    ensures k * size % size == 0
  {
    var r := k * size % size;
    var q := k * size / size;
    assert k * size == q * size + r;
    assert k < q ==> (k + 1) * size <= q * size;
    assert k > q ==> (q + 1) * size <= k * size;
  }

  /** Network `n` is the last one called `s`. */
  ghost predicate LastNamed(names: seq<string>, s: string, n: int) {
    0 <= n < |names| && names[n] == s && forall m :: n < m < |names| ==> names[m] != s
  }

  lemma {:induction false} SubnetMapAt(names: seq<string>, network: nat)
    ensures forall n :: 0 <= n < |names| ==> names[n] in SubnetMap(names, network)
    ensures forall s :: s in SubnetMap(names, network) ==>
              exists n :: LastNamed(names, s, n) && SubnetMap(names, network)[s] == Subnet(network, n)
  {
    if names != [] {
      var init, last := names[..|names| - 1], |names| - 1;
      SubnetMapAt(init, network);
      forall s | s in SubnetMap(names, network)
        ensures exists n :: LastNamed(names, s, n) && SubnetMap(names, network)[s] == Subnet(network, n)
      {
        if s == names[last] {
          assert LastNamed(names, s, last);
        } else {
          var n :| LastNamed(init, s, n) && SubnetMap(init, network)[s] == Subnet(network, n);
          assert LastNamed(names, s, n);
        }
      }
      assert forall n :: 0 <= n < |init| ==> names[n] == init[n];
    }
  }

  /** The (macvlan, SLA id) pairs that dhcpcd_conf writes for an uplink; every SLA id from 0 on is used once. */
  function SlaPairs(cfg: Config, u: nat): (r: seq<(string, nat)>)
    ensures |r| == |cfg.networks| && forall n :: 0 <= n < |r| ==> r[n] == (Mv(cfg, u, n), n)
  {
    seq(|cfg.networks|, n requires 0 <= n < |cfg.networks| => (Mv(cfg, u, n), n))
  }

  /** The enumeration of networks in dhcpcd_conf; None where a name cannot be made. */
  method PdDelegations(cfg: Config, uplink: Uplink) returns (r: Option<seq<(string, nat)>>)
    ensures r.Some? <==> NamesExist(cfg, uplink.index)
    ensures r.Some? ==> r.value == SlaPairs(cfg, uplink.index)
  {
    hide MacvlanName;
    var pairs: seq<(string, nat)> := [];
    for n := 0 to |cfg.networks|
      invariant |pairs| == n
      invariant forall k :: 0 <= k < n ==>
                  MacvlanName(cfg.networks[k].iface, uplink.index).Some? && pairs[k] == (Mv(cfg, uplink.index, k), k)
    {
      var mv := MacvlanName(cfg.networks[n].iface, uplink.index);
      if mv.None? { return None; }
      pairs := pairs + [(mv.value, n)];
    }
    r := Some(pairs);
  }

  /** All of `r` are aligned /64s inside the delegation, pairwise disjoint. */
  ghost predicate GoodSubnets(r: map<string, nat>, net: nat, size: nat) {
    && (forall s :: s in r ==> r[s] % SUBNET_SIZE == 0 && net <= r[s] && r[s] + SUBNET_SIZE <= net + size)
    && (forall s, t :: s in r && t in r && s != t ==> r[s] + SUBNET_SIZE <= r[t] || r[t] + SUBNET_SIZE <= r[s])
  }

  lemma {:induction false} SubnetMapGood(names: seq<string>, addr: nat, length: nat)
    requires addr < ADDRESS_SPACE && length <= SUBNET_BITS && |names| <= Pow2(SUBNET_BITS - length)
    ensures var net := Network6(Some(addr), length).value;
            GoodSubnets(SubnetMap(names, net), net, Pow2(ADDRESS_BITS - length))
  {
    hide Pow2, AlignDown, Subnet;
    var net, size := Network6(Some(addr), length).value, Pow2(ADDRESS_BITS - length);
    var r := SubnetMap(names, net);
    SubnetMapAt(names, net);
    forall s | s in r ensures r[s] % SUBNET_SIZE == 0 && net <= r[s] && r[s] + SUBNET_SIZE <= net + size {
      var n :| LastNamed(names, s, n) && r[s] == Subnet(net, n);
      SubnetsFit(addr, length, n, n);
    }
    forall s, t | s in r && t in r && s != t ensures r[s] + SUBNET_SIZE <= r[t] || r[t] + SUBNET_SIZE <= r[s] {
      var n :| LastNamed(names, s, n) && r[s] == Subnet(net, n);
      var m :| LastNamed(names, t, m) && r[t] == Subnet(net, m);
      SubnetsFit(addr, length, n, m);
      SubnetsFit(addr, length, m, n);
    }
  }

  /** Every network has its subnet under the same (macvlan, SLA id) pair that dhcpcd is given. */
  ghost predicate PairsMatch(cfg: Config, u: nat, r: map<string, nat>, net: nat) {
    forall n :: 0 <= n < |cfg.networks| ==>
      SlaPairs(cfg, u)[n].0 in r && r[SlaPairs(cfg, u)[n].0] == Subnet(net, SlaPairs(cfg, u)[n].1)
  }

  lemma {:induction false} PairsMatchIff(cfg: Config, u: nat, net: nat)
    ensures PairsMatch(cfg, u, SubnetMap(MvNames(cfg, u), net), net) <==> NamesDistinct(cfg, u)
  {
    hide Mv;
    var names := MvNames(cfg, u);
    var r := SubnetMap(names, net);
    SubnetMapAt(names, net);
    assert |names| == |cfg.networks| && forall n :: 0 <= n < |names| ==> names[n] == Mv(cfg, u, n);
    if NamesDistinct(cfg, u) {
      forall n | 0 <= n < |cfg.networks|
        ensures SlaPairs(cfg, u)[n].0 in r && r[SlaPairs(cfg, u)[n].0] == Subnet(net, SlaPairs(cfg, u)[n].1)
      {
        assert names[n] in r;
        var m :| LastNamed(names, names[n], m) && r[names[n]] == Subnet(net, m);
        assert Mv(cfg, u, m) == Mv(cfg, u, n);
        assert m == n;
      }
    }
    if PairsMatch(cfg, u, r, net) {
      forall n, m | 0 <= n < |cfg.networks| && 0 <= m < |cfg.networks| && Mv(cfg, u, n) == Mv(cfg, u, m)
        ensures n == m
      {
        assert SlaPairs(cfg, u)[n].0 == SlaPairs(cfg, u)[m].0;
        assert Subnet(net, n) == Subnet(net, m);
      }
    }
  }

  /**
   * Derivation is all or nothing. If it succeeds, the subnets are aligned, inside the delegation, and pairwise disjoint;
   * they match the pairs that dhcpcd is given iff the macvlan names differ.
   */
  lemma PrefixesAllOrNothing(cfg: Config, u: nat, addr: Option<nat>, pd: Option<PdState>)
    requires |cfg.networks| > 0
    ensures var r := DerivedPrefixes(cfg, u, addr, pd);
            && (r == map[] <==> pd.None? || !Derivable(cfg, u, addr, pd.value.length))
            && (r != map[] ==>
                  var net, size := Network6(addr, pd.value.length).value, Pow2(ADDRESS_BITS - pd.value.length);
                  && GoodSubnets(r, net, size)
                  && (forall n :: 0 <= n < |cfg.networks| ==> Mv(cfg, u, n) in r)
                  && (forall s :: s in r ==> s in MvNames(cfg, u))
                  && (PairsMatch(cfg, u, r, net) <==> NamesDistinct(cfg, u)))
  {
    hide MacvlanName, AlignDown, Pow2, GoodSubnets, PairsMatch, NamesDistinct;
    if pd.Some? && Derivable(cfg, u, addr, pd.value.length) {
      var names, net := MvNames(cfg, u), Network6(addr, pd.value.length).value;
      SubnetMapGood(names, addr.value, pd.value.length);
      SubnetMapAt(names, net);
      PairsMatchIff(cfg, u, net);
      assert names[0] in DerivedPrefixes(cfg, u, addr, pd);
      assert forall n :: 0 <= n < |names| ==> names[n] == Mv(cfg, u, n);
    }
  }

  // ---------------------------------------------------------------- regenerate_all

  /** Not the preferred default router although UP, and to be withdrawn. */
  predicate Secondary(cfg: Config, hs: Healths, u: nat)
    requires u < |cfg.uplinks|
  {
    cfg.exclusivePreferredPd && PreferenceFor(cfg, hs, u).Medium?
  }

  function BlockOf(cfg: Config, hs: Healths, u: nat, l: Leases, n: nat): Block
    requires u < |cfg.uplinks| && n < |cfg.networks|
  {
    var pref := PreferenceFor(cfg, hs, u);
    var default := if Secondary(cfg, hs, u) then 0
                   else if l.ra.Some? then l.ra.value.Remaining(l.now) else INITIAL_DEFAULT_LIFETIME;
    var valid := if l.pd.Some? then l.pd.value.RemainingVltime(l.now) else INITIAL_VALID_LIFETIME;
    var preferred := if Secondary(cfg, hs, u) then 0
                     else if l.pd.Some? then l.pd.value.RemainingPltime(l.now) else INITIAL_PREFERRED_LIFETIME;
    var mv := Mv(cfg, u, n);
    var prefixes := DerivedPrefixes(cfg, u, l.pdAddress, l.pd);
    InterfaceBlock(mv, pref, default, prefixes, valid, preferred, pref.Low?)
  }

  function ConfOf(cfg: Config, hs: Healths, u: nat, l: Leases): seq<Block>
    requires u < |cfg.uplinks|
  {
    seq(|cfg.networks|, n requires 0 <= n < |cfg.networks| => BlockOf(cfg, hs, u, l, n))
  }

  type Confs = map<string, seq<Block>>

  /** The files after the first `i` uplinks were written. */
  function Regenerated(cfg: Config, hs: Healths, files: Snapshot, conf: Confs, i: nat): Confs
    requires i <= |cfg.uplinks|
  {
    if i == 0 then conf
    else
      var up := cfg.uplinks[i - 1];
      var before := Regenerated(cfg, hs, files, conf, i - 1);
      if up.ipv6Pd then before[up.name := ConfOf(cfg, hs, i - 1, Read(files, up.name))] else before
  }

  /** The units signalled for the first `i` uplinks. */
  function Signalled(cfg: Config, action: RadvdAction, i: nat): seq<(string, RadvdAction)>
    requires i <= |cfg.uplinks|
  {
    if i == 0 || action.Write? then []
    else Signalled(cfg, action, i - 1) + if cfg.uplinks[i - 1].ipv6Pd then [(cfg.uplinks[i - 1].name, action)] else []
  }

  /** The names of the PD uplinks among the first `i`, in order. */
  function PdUnits(cfg: Config, i: nat): (units: seq<string>)
    requires i <= |cfg.uplinks|
    ensures forall s :: s in units <==> exists u :: 0 <= u < i && cfg.uplinks[u].ipv6Pd && cfg.uplinks[u].name == s
  {
    if i == 0 then []
    else PdUnits(cfg, i - 1) + if cfg.uplinks[i - 1].ipv6Pd then [cfg.uplinks[i - 1].name] else []
  }

  ghost predicate NoRepeats(units: seq<string>) { forall i, j :: 0 <= i < j < |units| ==> units[i] != units[j] }

  /** Each PD uplink has one unit. */
  lemma {:induction false} PdUnitsOnce(cfg: Config, i: nat)
    requires Accepted(cfg) && i <= |cfg.uplinks|
    ensures NoRepeats(PdUnits(cfg, i))
  {
    if i > 0 {
      PdUnitsOnce(cfg, i - 1);
      assert cfg.uplinks[i - 1].name !in PdUnits(cfg, i - 1);
    }
  }

  /** One SIGHUP to each of `units`. */
  function Hups(units: seq<string>): seq<(string, RadvdAction)> {
    seq(|units|, i requires 0 <= i < |units| => (units[i], Sighup))
  }

  lemma {:induction false} SignalledOnce(cfg: Config, i: nat)
    requires i <= |cfg.uplinks|
    ensures Signalled(cfg, Sighup, i) == Hups(PdUnits(cfg, i)) && Signalled(cfg, Write, i) == []
  {
    if i > 0 {
      SignalledOnce(cfg, i - 1);
    }
  }

  lemma {:induction false} NothingWritten(cfg: Config, hs: Healths, files: Snapshot, conf: Confs, action: RadvdAction)
    ensures Regenerated(cfg, hs, files, conf, 0) == conf && Signalled(cfg, action, 0) == []
  {
  }

  lemma OneMoreWritten(cfg: Config, hs: Healths, files: Snapshot, conf: Confs, action: RadvdAction, i: nat)
    requires i < |cfg.uplinks|
    ensures var up, before, signals := cfg.uplinks[i], Regenerated(cfg, hs, files, conf, i), Signalled(cfg, action, i);
            && Regenerated(cfg, hs, files, conf, i + 1) ==
               (if up.ipv6Pd then before[up.name := ConfOf(cfg, hs, i, Read(files, up.name))] else before)
            && Signalled(cfg, action, i + 1) ==
               (if up.ipv6Pd && action != Write then signals + [(up.name, action)] else signals)
  {
    hide ConfOf;
  }

  class RadvdDir {
    var conf: Confs
    var signals: seq<(string, RadvdAction)>

    method RegenerateAll(cfg: Config, states: map<string, UplinkState>, files: Snapshot, action: RadvdAction, ghost hs: Healths)
      requires Accepted(cfg) && WellNamed(cfg)
      requires states.Keys == hs.Keys && forall s :: s in states ==> states[s].Val() == hs[s]
      requires forall u :: 0 <= u < |cfg.uplinks| ==> cfg.uplinks[u].name in states
      modifies this
      ensures conf == Regenerated(cfg, hs, files, old(conf), |cfg.uplinks|)
      ensures signals == old(signals) + Signalled(cfg, action, |cfg.uplinks|)
    {
      hide ConfOf, FirstUp6, PreferenceFor, MacvlanName, Regenerated, Signalled;
      NothingWritten(cfg, hs, files, conf, action);
      var primary := FirstUpMethod(cfg, states, hs);
      for i := 0 to |cfg.uplinks|
        invariant conf == Regenerated(cfg, hs, files, old(conf), i)
        invariant signals == old(signals) + Signalled(cfg, action, i)
      {
        OneMoreWritten(cfg, hs, files, old(conf), action, i);
        var uplink := cfg.uplinks[i];
        if uplink.ipv6Pd {
          var isDown := states[uplink.name].ipv6 == Down;
          var isPrimary := primary.Some? && primary.value.name == uplink.name;
          var blocks := ConfFor(cfg, uplink, isDown, isPrimary, Read(files, uplink.name), hs);
          conf := conf[uplink.name := blocks];
          if action != Write {
            signals := signals + [(uplink.name, action)];
          }
        }
      }
    }
  }

  /** The body of the loop of regenerate_all up to the call of the generator. */
  method ConfFor(cfg: Config, uplink: Uplink, isDown: bool, isPrimary: bool, l: Leases, ghost hs: Healths)
    returns (blocks: seq<Block>)
    requires Accepted(cfg) && uplink.index < |cfg.uplinks| && cfg.uplinks[uplink.index] == uplink
    requires NamesExist(cfg, uplink.index)
    requires isDown <==> HealthOf(hs, uplink.name).v6.state.Down?
    requires isPrimary <==> PrimaryIpv6(cfg, hs) == Some(uplink.index)
    ensures blocks == ConfOf(cfg, hs, uplink.index, l)
  {
    hide MacvlanName, DerivedPrefixes, Clamp;
    var pref := if isDown then Low else if isPrimary then High else Medium;
    var defaultLifetime, valid, preferred := INITIAL_DEFAULT_LIFETIME, INITIAL_VALID_LIFETIME, INITIAL_PREFERRED_LIFETIME;
    if l.ra.Some? {
      defaultLifetime := l.ra.value.Remaining(l.now);
    }
    if l.pd.Some? {
      valid, preferred := l.pd.value.RemainingVltime(l.now), l.pd.value.RemainingPltime(l.now);
    }
    if cfg.exclusivePreferredPd && !isDown && !isPrimary {
      preferred, defaultLifetime := 0, 0;
    }
    var prefixes := DerivePrefixes(cfg, uplink, l.pdAddress, l.pd);
    blocks := RadvdConfFromState(cfg, uplink, pref, defaultLifetime, prefixes, valid, preferred, isDown);
    assert PreferenceFor(cfg, hs, uplink.index) == pref;
  }

  /** One interface of a generated file: a DOWN uplink is advertised with zero lifetimes. */
  function InterfaceBlock(mv: string, preference: Preference, defaultLifetime: int, prefixes: map<string, nat>,
                          valid: int, preferred: int, isDown: bool): Block
  {
    Block(mv, preference, Clamp(if isDown then 0 else defaultLifetime),
          if mv in prefixes then Some(prefixes[mv]) else None,
          if isDown then 0 else valid, if isDown then 0 else preferred)
  }

  /** generator.py, radvd_conf_from_state. */
  method RadvdConfFromState(cfg: Config, uplink: Uplink, preference: Preference, defaultLifetime: int,
                            prefixes: map<string, nat>, valid: int, preferred: int, isDown: bool)
    returns (blocks: seq<Block>)
    requires NamesExist(cfg, uplink.index)
    ensures |blocks| == |cfg.networks|
    ensures forall n :: 0 <= n < |blocks| ==>
              blocks[n] == InterfaceBlock(Mv(cfg, uplink.index, n), preference, defaultLifetime, prefixes, valid, preferred, isDown)
  {
    hide MacvlanName, InterfaceBlock;
    blocks := [];
    for n := 0 to |cfg.networks|
      invariant |blocks| == n
      invariant forall k :: 0 <= k < n ==>
                  blocks[k] == InterfaceBlock(Mv(cfg, uplink.index, k), preference, defaultLifetime, prefixes, valid, preferred, isDown)
    {
      var mv := MacvlanName(cfg.networks[n].iface, uplink.index).value;
      blocks := blocks + [InterfaceBlock(mv, preference, defaultLifetime, prefixes, valid, preferred, isDown)];
    }
  }

  /** primary_ipv6_uplink on the state objects. */
  method FirstUpMethod(cfg: Config, states: map<string, UplinkState>, ghost hs: Healths) returns (r: Option<Uplink>)
    requires states.Keys == hs.Keys && forall s :: s in states ==> states[s].Val() == hs[s]
    requires forall u :: 0 <= u < |cfg.uplinks| ==> cfg.uplinks[u].name in states
    ensures match PrimaryIpv6(cfg, hs)
            case Some(u) => r == Some(cfg.uplinks[u])
            case None => r.None?
  {
    for u := 0 to |cfg.uplinks|
      invariant forall v :: 0 <= v < u ==> !Up6(cfg, hs, v)
    {
      if cfg.uplinks[u].ipv6Pd && states[cfg.uplinks[u].name].ipv6 == Up {
        assert Up6(cfg, hs, u) && PrimaryIpv6(cfg, hs) == Some(u);
        return Some(cfg.uplinks[u]);
      }
    }
    r := None;
  }

  // ---------------------------------------------------------------- what the files advertise

  ghost predicate PdUplink(cfg: Config, u: int) { 0 <= u < |cfg.uplinks| && cfg.uplinks[u].ipv6Pd }

  predicate Ipv6Up(cfg: Config, hs: Healths, u: int)
    requires 0 <= u < |cfg.uplinks|
  {
    HealthOf(hs, cfg.uplinks[u].name).v6.state == Up
  }

  /** The first PD uplink that is UP for IPv6. */
  ghost predicate Leads(cfg: Config, hs: Healths, u: int) {
    PdUplink(cfg, u) && Ipv6Up(cfg, hs, u) && forall v :: 0 <= v < u && PdUplink(cfg, v) ==> !Ipv6Up(cfg, hs, v)
  }

  /** One of several that are UP, to be withdrawn. */
  ghost predicate Withdrawn(cfg: Config, hs: Healths, u: int)
    requires 0 <= u < |cfg.uplinks|
  {
    cfg.exclusivePreferredPd && Ipv6Up(cfg, hs, u) && !Leads(cfg, hs, u)
  }

  lemma LeadsIsPrimary(cfg: Config, hs: Healths)
    ensures forall u :: PrimaryIpv6(cfg, hs) == Some(u) <==> Leads(cfg, hs, u)
  {
    forall u ensures Up6(cfg, hs, u) <==> PdUplink(cfg, u) && Ipv6Up(cfg, hs, u) {
    }
  }

  /** What a block says by the link states alone: `low` with all lifetimes zero on a DOWN uplink, `high` on the first UP
      one, `medium` on the others; and withdrawn where only one is to be seen. */
  ghost predicate TierOf(cfg: Config, hs: Healths, u: int, b: Block)
    requires 0 <= u < |cfg.uplinks|
  {
    && b.preference == (if !Ipv6Up(cfg, hs, u) then Low else if Leads(cfg, hs, u) then High else Medium)
    && (!Ipv6Up(cfg, hs, u) ==> b.defaultLifetime == b.valid == b.preferred == 0)
    && (Withdrawn(cfg, hs, u) ==> b.defaultLifetime == b.preferred == 0)
  }

  /** The file of every PD uplink advertises the tier of the given health, on every network. */
  ghost predicate TiersCurrent(cfg: Config, hs: Healths, conf: Confs) {
    forall u :: PdUplink(cfg, u) ==>
      && cfg.uplinks[u].name in conf
      && |conf[cfg.uplinks[u].name]| == |cfg.networks|
      && forall b :: b in conf[cfg.uplinks[u].name] ==> TierOf(cfg, hs, u, b)
  }

  /** The remaining lifetimes of what is on file, where the uplink is UP and not withdrawn; without a record the
      placeholders of two hours and half an hour. */
  ghost predicate LifetimesOf(cfg: Config, hs: Healths, u: int, l: Leases, b: Block)
    requires 0 <= u < |cfg.uplinks|
  {
    Ipv6Up(cfg, hs, u) ==>
      && b.valid == (match l.pd
                     case Some(pd) => NonNegative(pd.vltime - (l.now - pd.timestamp))
                     case None => 7200)
      && (!Withdrawn(cfg, hs, u) ==>
            && b.preferred == (match l.pd
                               case Some(pd) => NonNegative(pd.pltime - (l.now - pd.timestamp))
                               case None => 1800)
            && b.defaultLifetime == Clamp(match l.ra
                                          case Some(ra) =>
                                            if ra.lifetime == 0 then 0 else NonNegative(ra.lifetime - (l.now - ra.timestamp))
                                          case None => 1800))
  }

  /** The delegation is readable and has room for one /64 per network. */
  predicate Fits(cfg: Config, l: Leases) {
    && l.pd.Some? && l.pdAddress.Some? && l.pdAddress.value < ADDRESS_SPACE && 0 <= l.pd.value.length <= SUBNET_BITS
    && |cfg.networks| * SUBNET_SIZE <= Pow2(ADDRESS_BITS - l.pd.value.length)
  }

  /** Network `n` has the n-th /64 of the delegation, or the placeholder where there is no room. */
  predicate PrefixOf(cfg: Config, l: Leases, n: int, b: Block) {
    b.prefix == if Fits(cfg, l)
                then Some(AlignDown(l.pdAddress.value, Pow2(ADDRESS_BITS - l.pd.value.length)) + n * SUBNET_SIZE)
                else None
  }

  /** The file of every PD uplink says on every network what `files` held, as the link states have it. */
  ghost predicate Advertises(cfg: Config, hs: Healths, files: Snapshot, conf: Confs) {
    forall u :: PdUplink(cfg, u) ==>
      && cfg.uplinks[u].name in conf
      && |conf[cfg.uplinks[u].name]| == |cfg.networks|
      && forall n :: 0 <= n < |cfg.networks| ==>
           var b, l := conf[cfg.uplinks[u].name][n], Read(files, cfg.uplinks[u].name);
           b.iface == Mv(cfg, u, n) && TierOf(cfg, hs, u, b) && LifetimesOf(cfg, hs, u, l, b) && PrefixOf(cfg, l, n, b)
  }

  lemma BlockTier(cfg: Config, hs: Healths, u: nat, l: Leases, n: nat)
    requires PdUplink(cfg, u) && n < |cfg.networks|
    ensures TierOf(cfg, hs, u, BlockOf(cfg, hs, u, l, n)) && LifetimesOf(cfg, hs, u, l, BlockOf(cfg, hs, u, l, n))
  {
    hide DerivedPrefixes, Leads, Mv;
    LeadsIsPrimary(cfg, hs);
  }

  /** The room that the code asks for, in powers of the number of subnets, is room for one /64 each. */
  lemma FitsIsDerivable(cfg: Config, u: nat, l: Leases)
    requires NamesExist(cfg, u)
    ensures Fits(cfg, l) <==> l.pd.Some? && Derivable(cfg, u, l.pdAddress, l.pd.value.length)
  {
    hide Pow2, MacvlanName, AlignDown;
    if l.pd.Some? && 0 <= l.pd.value.length <= SUBNET_BITS {
      var count := Pow2(SUBNET_BITS - l.pd.value.length);
      DelegationSize(l.pd.value.length);
      assert |cfg.networks| <= count <==> |cfg.networks| * SUBNET_SIZE <= count * SUBNET_SIZE;
    }
  }

  lemma BlockPrefix(cfg: Config, hs: Healths, u: nat, l: Leases, n: nat)
    requires Accepted(cfg) && u < |cfg.uplinks| && n < |cfg.networks| && NamesExist(cfg, u) && NamesDistinct(cfg, u)
    ensures PrefixOf(cfg, l, n, BlockOf(cfg, hs, u, l, n))
  {
    hide Accepted, NamesExist, NamesDistinct, Pow2, AlignDown, PreferenceFor, Secondary, DerivedPrefixes, Fits, Clamp, Mv;
    DerivedAt(cfg, u, l, n);
  }

  lemma DerivedAt(cfg: Config, u: nat, l: Leases, n: nat)
    requires n < |cfg.networks| && NamesExist(cfg, u) && NamesDistinct(cfg, u)
    ensures var r := DerivedPrefixes(cfg, u, l.pdAddress, l.pd);
            && (Fits(cfg, l) <==> Mv(cfg, u, n) in r)
            && (Fits(cfg, l) ==>
                  r[Mv(cfg, u, n)] == AlignDown(l.pdAddress.value, Pow2(ADDRESS_BITS - l.pd.value.length)) + n * SUBNET_SIZE)
  {
    hide Pow2, AlignDown, NamesExist, NamesDistinct, DerivedPrefixes, GoodSubnets, Derivable, Mv;
    FitsIsDerivable(cfg, u, l);
    PrefixesAllOrNothing(cfg, u, l.pdAddress, l.pd);
    if Fits(cfg, l) {
      assert SlaPairs(cfg, u)[n] == (Mv(cfg, u, n), n);
    }
  }

  /** Rewritten files say exactly what the records and the link states call for. */
  lemma {:induction false} RegeneratedAdvertises(cfg: Config, hs: Healths, files: Snapshot, conf: Confs)
    requires Accepted(cfg) && WellNamed(cfg)
    ensures Advertises(cfg, hs, files, Regenerated(cfg, hs, files, conf, |cfg.uplinks|))
    ensures forall s :: (forall u :: PdUplink(cfg, u) ==> cfg.uplinks[u].name != s) ==>
              var written := Regenerated(cfg, hs, files, conf, |cfg.uplinks|);
              (s in written <==> s in conf) && (s in conf ==> written[s] == conf[s])
  {
    OthersNotWritten(cfg, hs, files, conf, |cfg.uplinks|);
    hide Regenerated, BlockOf, TierOf, LifetimesOf, PrefixOf, Mv;
    forall u | PdUplink(cfg, u)
      ensures var name, written := cfg.uplinks[u].name, Regenerated(cfg, hs, files, conf, |cfg.uplinks|);
              name in written && written[name] == ConfOf(cfg, hs, u, Read(files, name))
    {
      RegeneratedAt(cfg, hs, files, conf, |cfg.uplinks|, u);
    }
    forall u, n | PdUplink(cfg, u) && 0 <= n < |cfg.networks|
      ensures var l := Read(files, cfg.uplinks[u].name); var b := BlockOf(cfg, hs, u, l, n);
              b.iface == Mv(cfg, u, n) && TierOf(cfg, hs, u, b) && LifetimesOf(cfg, hs, u, l, b) && PrefixOf(cfg, l, n, b)
    {
      var l := Read(files, cfg.uplinks[u].name);
      BlockTier(cfg, hs, u, l, n);
      BlockPrefix(cfg, hs, u, l, n);
      BlockIface(cfg, hs, u, l, n);
    }
  }

  /** No other file is touched. */
  lemma {:induction false} OthersNotWritten(cfg: Config, hs: Healths, files: Snapshot, conf: Confs, i: nat)
    requires i <= |cfg.uplinks|
    ensures forall s :: (forall u :: PdUplink(cfg, u) ==> cfg.uplinks[u].name != s) ==>
              var written := Regenerated(cfg, hs, files, conf, i);
              (s in written <==> s in conf) && (s in conf ==> written[s] == conf[s])
  {
    hide ConfOf;
    if i > 0 {
      OthersNotWritten(cfg, hs, files, conf, i - 1);
      assert cfg.uplinks[i - 1].ipv6Pd ==> PdUplink(cfg, i - 1);
    }
  }

  lemma BlockIface(cfg: Config, hs: Healths, u: nat, l: Leases, n: nat)
    requires u < |cfg.uplinks| && n < |cfg.networks|
    ensures BlockOf(cfg, hs, u, l, n).iface == Mv(cfg, u, n)
  {
  }

  lemma {:induction false} RegeneratedAt(cfg: Config, hs: Healths, files: Snapshot, conf: Confs, i: nat, u: nat)
    requires Accepted(cfg) && u < i <= |cfg.uplinks| && PdUplink(cfg, u)
    ensures var name := cfg.uplinks[u].name;
            name in Regenerated(cfg, hs, files, conf, i)
            && Regenerated(cfg, hs, files, conf, i)[name] == ConfOf(cfg, hs, u, Read(files, name))
  {
    if u < i - 1 {
      RegeneratedAt(cfg, hs, files, conf, i - 1, u);
    }
  }

  lemma {:induction false} RegeneratedIsCurrent(cfg: Config, hs: Healths, files: Snapshot, conf: Confs)
    requires Accepted(cfg)
    ensures TiersCurrent(cfg, hs, Regenerated(cfg, hs, files, conf, |cfg.uplinks|))
  {
    hide Regenerated, BlockOf, TierOf;
    forall u | PdUplink(cfg, u)
      ensures var name := cfg.uplinks[u].name;
              name in Regenerated(cfg, hs, files, conf, |cfg.uplinks|)
              && Regenerated(cfg, hs, files, conf, |cfg.uplinks|)[name] == ConfOf(cfg, hs, u, Read(files, name))
    {
      RegeneratedAt(cfg, hs, files, conf, |cfg.uplinks|, u);
    }
    forall u, n | PdUplink(cfg, u) && 0 <= n < |cfg.networks|
      ensures TierOf(cfg, hs, u, BlockOf(cfg, hs, u, Read(files, cfg.uplinks[u].name), n))
    {
      BlockTier(cfg, hs, u, Read(files, cfg.uplinks[u].name), n);
    }
  }

  /** The tiers are a function of which PD uplinks are UP for IPv6. */
  lemma TiersFollowState(cfg: Config, hs: Healths, hs': Healths, conf: Confs)
    requires forall u :: PdUplink(cfg, u) ==>
               HealthOf(hs', cfg.uplinks[u].name).v6.state == HealthOf(hs, cfg.uplinks[u].name).v6.state
    ensures TiersCurrent(cfg, hs, conf) <==> TiersCurrent(cfg, hs', conf)
    ensures PrimaryIpv6(cfg, hs') == PrimaryIpv6(cfg, hs)
    ensures forall files :: Advertises(cfg, hs, files, conf) <==> Advertises(cfg, hs', files, conf)
  {
    assert forall u :: PdUplink(cfg, u) ==> (Ipv6Up(cfg, hs, u) <==> Ipv6Up(cfg, hs', u));
    assert forall u :: Leads(cfg, hs, u) <==> Leads(cfg, hs', u);
    LeadsIsPrimary(cfg, hs);
    LeadsIsPrimary(cfg, hs');
    var p, p' := PrimaryIpv6(cfg, hs), PrimaryIpv6(cfg, hs');
    assert p.Some? ==> p' == Some(p.value);
    assert p'.Some? ==> p == Some(p'.value);
    forall u, b | PdUplink(cfg, u) ensures TierOf(cfg, hs, u, b) <==> TierOf(cfg, hs', u, b) {
    }
    forall u, l, b | PdUplink(cfg, u) ensures LifetimesOf(cfg, hs, u, l, b) <==> LifetimesOf(cfg, hs', u, l, b) {
    }
    hide TierOf, LifetimesOf, PrefixOf;
  }

  /** Exactly one file is `high` iff some PD uplink is UP, and it is the primary's; the rest are as RFC 4191 ranks them. */
  lemma OneHigh(cfg: Config, hs: Healths, conf: Confs)
    requires Accepted(cfg) && TiersCurrent(cfg, hs, conf)
    ensures PrimaryIpv6(cfg, hs).Some? <==> exists u :: Up6(cfg, hs, u)
    ensures forall u :: PdUplink(cfg, u) ==>
              ((forall b :: b in conf[cfg.uplinks[u].name] ==> b.preference.High?) <==> PrimaryIpv6(cfg, hs) == Some(u))
    ensures cfg.exclusivePreferredPd ==>
              forall u, b :: PdUplink(cfg, u) && PrimaryIpv6(cfg, hs) != Some(u) && b in conf[cfg.uplinks[u].name] ==>
                b.defaultLifetime == 0 && b.preferred == 0
  {
    hide Leads;
    LeadsIsPrimary(cfg, hs);
    forall u | PdUplink(cfg, u)
      ensures (forall b :: b in conf[cfg.uplinks[u].name] ==> b.preference.High?) <==> PrimaryIpv6(cfg, hs) == Some(u)
    {
      assert conf[cfg.uplinks[u].name][0] in conf[cfg.uplinks[u].name];
      LeaderIsUp(cfg, hs, u);
    }
  }

  lemma LeaderIsUp(cfg: Config, hs: Healths, u: int)
    ensures Leads(cfg, hs, u) ==> PdUplink(cfg, u) && Ipv6Up(cfg, hs, u)
  {
  }
}
