/** priority.py: allocation of `ip rule` priorities. A slot names one rule the daemon may install. */
module Priority {
  import opened Configuration

  // ---------------------------------------------------------------- the seven priority functions

  function Ipv4InternalTraffic(cfg: Config): int { cfg.prioStart }

  function Ipv4LoToUplink(cfg: Config, u: int): int { cfg.prioStart + 1 + u }

  function Ipv4FwdToWan(cfg: Config): int { cfg.prioStart + 1 + |cfg.uplinks| }

  function Ipv6InternalTraffic(cfg: Config): int { cfg.prioStart }

  function Ipv6FwdToUplink(cfg: Config, u: int, n: int): int {
    cfg.prioStart + 1 + u * |cfg.networks| + n
  }

  function Ipv6LoToUplink(cfg: Config, u: int): int {
    var N := |cfg.uplinks| * |cfg.networks|;
    cfg.prioStart + 1 + N + u
  }

  function Ipv6RejectWrongPdSrc(cfg: Config, u: int, n: int): int {
    var N := |cfg.uplinks| * |cfg.networks|;
    cfg.prioStart + 1 + N + |cfg.uplinks| + u * |cfg.networks| + n
  }

  function Ipv6PdLoToUplink(cfg: Config, u: int): int {
    var N := |cfg.uplinks| * |cfg.networks|;
    cfg.prioStart + 1 + N + |cfg.uplinks| + N + u
  }

  // ---------------------------------------------------------------- slots

  datatype Slot4 = Internal4 | Lo4(u: nat) | FwdToWan4

  datatype Slot6 = Internal6 | Fwd6(u: nat, n: nat) | Lo6(u: nat) | Reject6(u: nat, n: nat) | PdLo6(u: nat)

  predicate Valid4(cfg: Config, s: Slot4) {
    s.Lo4? ==> s.u < |cfg.uplinks|
  }

  predicate Valid6(cfg: Config, s: Slot6) {
    match s
    case Internal6 => true
    case Fwd6(u, n) => u < |cfg.uplinks| && n < |cfg.networks|
    case Lo6(u) => u < |cfg.uplinks|
    case Reject6(u, n) => u < |cfg.uplinks| && n < |cfg.networks|
    case PdLo6(u) => u < |cfg.uplinks|
  }

  function Prio4(cfg: Config, s: Slot4): int {
    match s
    case Internal4 => Ipv4InternalTraffic(cfg)
    case Lo4(u) => Ipv4LoToUplink(cfg, u)
    case FwdToWan4 => Ipv4FwdToWan(cfg)
  }

  function Prio6(cfg: Config, s: Slot6): int {
    match s
    case Internal6 => Ipv6InternalTraffic(cfg)
    case Fwd6(u, n) => Ipv6FwdToUplink(cfg, u, n)
    case Lo6(u) => Ipv6LoToUplink(cfg, u)
    case Reject6(u, n) => Ipv6RejectWrongPdSrc(cfg, u, n)
    case PdLo6(u) => Ipv6PdLoToUplink(cfg, u)
  }

  function Block4Size(cfg: Config): nat { |cfg.uplinks| + 2 }

  function Block6Size(cfg: Config): nat {
    1 + 2 * (|cfg.uplinks| * |cfg.networks|) + 2 * |cfg.uplinks|
  }

  predicate InBlock4(cfg: Config, p: int) { cfg.prioStart <= p < cfg.prioStart + Block4Size(cfg) }

  predicate InBlock6(cfg: Config, p: int) { cfg.prioStart <= p < cfg.prioStart + Block6Size(cfg) }

  // ---------------------------------------------------------------- row-major arithmetic

  lemma RowBound(u: nat, n: nat, U: nat, M: nat)
    requires u < U && n < M
    ensures 0 <= u * M + n < U * M
  {
    assert (u + 1) * M <= U * M;
  }

  lemma RowInjective(u: nat, n: nat, v: nat, m: nat, M: nat)
    requires n < M && m < M && u * M + n == v * M + m
    ensures u == v && n == m
  {
    assert u < v ==> (u + 1) * M <= v * M;
    assert v < u ==> (v + 1) * M <= u * M;
  }

  lemma RowDecode(k: nat, U: nat, M: nat) returns (u: nat, n: nat)
    requires k < U * M
    ensures u < U && n < M && k == u * M + n
  {
    u, n := k / M, k % M;
    assert u >= U ==> u * M >= U * M;
  }

  // ---------------------------------------------------------------- bijection with the block

  /** Offset of the first priority of a slot's family; `N` is the number of (uplink, network) pairs. */
  function FamilyStart(cfg: Config, s: Slot6): nat {
    var U, N := |cfg.uplinks|, |cfg.uplinks| * |cfg.networks|;
    match s
    case Internal6 => 0
    case Fwd6(_, _) => 1
    case Lo6(_) => 1 + N
    case Reject6(_, _) => 1 + N + U
    case PdLo6(_) => 1 + N + U + N
  }

  function FamilySize(cfg: Config, s: Slot6): nat {
    match s
    case Internal6 => 1
    case Fwd6(_, _) => |cfg.uplinks| * |cfg.networks|
    case Lo6(_) => |cfg.uplinks|
    case Reject6(_, _) => |cfg.uplinks| * |cfg.networks|
    case PdLo6(_) => |cfg.uplinks|
  }

  /** A slot's place within its family. */
  function Place(cfg: Config, s: Slot6): int {
    match s
    case Internal6 => 0
    case Fwd6(u, n) => u * |cfg.networks| + n
    case Lo6(u) => u
    case Reject6(u, n) => u * |cfg.networks| + n
    case PdLo6(u) => u
  }

  lemma PrioIsPlace(cfg: Config, s: Slot6)
    requires Valid6(cfg, s)
    ensures Prio6(cfg, s) == cfg.prioStart + FamilyStart(cfg, s) + Place(cfg, s)
    ensures 0 <= Place(cfg, s) < FamilySize(cfg, s)
  {
    if s.Fwd6? || s.Reject6? {
      RowBound(s.u, s.n, |cfg.uplinks|, |cfg.networks|);
    }
  }

  lemma Bounds6(cfg: Config, s: Slot6)
    requires Valid6(cfg, s)
    ensures InBlock6(cfg, Prio6(cfg, s))
  {
    PrioIsPlace(cfg, s);
  }

  /** Two slots never share a priority. */
  lemma Injective6(cfg: Config, s: Slot6, t: Slot6)
    requires Valid6(cfg, s) && Valid6(cfg, t)
    requires Prio6(cfg, s) == Prio6(cfg, t)
    ensures s == t
  {
    hide Prio6;
    PrioIsPlace(cfg, s);
    PrioIsPlace(cfg, t);
    assert FamilyStart(cfg, s) == FamilyStart(cfg, t) && s.Fwd6? == t.Fwd6? && s.Reject6? == t.Reject6?;
    if s.Fwd6? || s.Reject6? {
      RowInjective(s.u, s.n, t.u, t.n, |cfg.networks|);
    }
  }

  /** Every priority of the block is the priority of a slot: the block has no gap. */
  lemma Surjective6(cfg: Config, p: int) returns (s: Slot6)
    requires InBlock6(cfg, p)
    ensures Valid6(cfg, s) && Prio6(cfg, s) == p
  {
    var U, M := |cfg.uplinks|, |cfg.networks|;
    var k := p - cfg.prioStart - 1;
    if k < 0 {
      s := Internal6;
    } else if k < U * M {
      var u, n := RowDecode(k, U, M);
      s := Fwd6(u, n);
    } else if k < U * M + U {
      s := Lo6(k - U * M);
    } else if k < U * M + U + U * M {
      var u, n := RowDecode(k - U * M - U, U, M);
      s := Reject6(u, n);
    } else {
      s := PdLo6(k - U * M - U - U * M);
    }
  }

  /** The IPv6 allocation is a bijection onto a contiguous block; each accept rule precedes its prohibit rule. */
  lemma Ipv6Bijection(cfg: Config)
    ensures forall s :: Valid6(cfg, s) ==> InBlock6(cfg, Prio6(cfg, s))
    ensures forall s, t :: Valid6(cfg, s) && Valid6(cfg, t) && Prio6(cfg, s) == Prio6(cfg, t) ==> s == t
    ensures forall p :: InBlock6(cfg, p) ==> exists s :: Valid6(cfg, s) && Prio6(cfg, s) == p
    ensures forall u: nat, n: nat, v: nat, m: nat ::
              Valid6(cfg, Fwd6(u, n)) && Valid6(cfg, Reject6(v, m)) ==> Prio6(cfg, Fwd6(u, n)) < Prio6(cfg, Reject6(v, m))
  {
    forall s | Valid6(cfg, s) ensures InBlock6(cfg, Prio6(cfg, s)) {
      Bounds6(cfg, s);
    }
    forall s, t | Valid6(cfg, s) && Valid6(cfg, t) && Prio6(cfg, s) == Prio6(cfg, t) ensures s == t {
      Injective6(cfg, s, t);
    }
    forall p | InBlock6(cfg, p) ensures exists s :: Valid6(cfg, s) && Prio6(cfg, s) == p {
      var s := Surjective6(cfg, p);
    }
    forall u: nat, n: nat, v: nat, m: nat | Valid6(cfg, Fwd6(u, n)) && Valid6(cfg, Reject6(v, m))
      ensures Prio6(cfg, Fwd6(u, n)) < Prio6(cfg, Reject6(v, m))
    {
      hide Prio6;
      PrioIsPlace(cfg, Fwd6(u, n));
      PrioIsPlace(cfg, Reject6(v, m));
    }
  }

  lemma Surjective4(cfg: Config, p: int) returns (s: Slot4)
    requires InBlock4(cfg, p)
    ensures Valid4(cfg, s) && Prio4(cfg, s) == p
  {
    var k := p - cfg.prioStart;
    s := if k == 0 then Internal4 else if k <= |cfg.uplinks| then Lo4(k - 1) else FwdToWan4;
  }

  lemma Ipv4Bijection(cfg: Config)
    ensures forall s :: Valid4(cfg, s) ==> InBlock4(cfg, Prio4(cfg, s))
    ensures forall s, t :: Valid4(cfg, s) && Valid4(cfg, t) && Prio4(cfg, s) == Prio4(cfg, t) ==> s == t
    ensures forall p :: InBlock4(cfg, p) ==> exists s :: Valid4(cfg, s) && Prio4(cfg, s) == p
  {
    forall p | InBlock4(cfg, p) ensures exists s :: Valid4(cfg, s) && Prio4(cfg, s) == p {
      var s := Surjective4(cfg, p);
    }
  }
}
