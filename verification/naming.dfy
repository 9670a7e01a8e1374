/** naming.py: macvlan names, table numbers, IAIDs. */
module Naming {
  import opened Wrappers
  import opened Configuration

  const MAX_IFNAME := 15

  // ---------------------------------------------------------------- decimal numerals

  predicate IsDigit(c: char) { '0' <= c <= '9' }

  function DigitChar(d: int): char
    requires 0 <= d < 10
  {
    (48 + d) as char
  }

  function DigitValue(c: char): int
    requires IsDigit(c)
  {
    c as int - 48
  }

  /** `str(n)` for n >= 0. */
  function Dec(n: nat): (s: string)
    ensures |s| > 0 && forall i :: 0 <= i < |s| ==> IsDigit(s[i])
  {
    if n < 10 then [DigitChar(n)] else Dec(n / 10) + [DigitChar(n % 10)]
  }

  /** The number a digit string denotes. */
  function Undec(s: string): nat
    requires forall i :: 0 <= i < |s| ==> IsDigit(s[i])
  {
    if s == "" then 0 else 10 * Undec(s[..|s| - 1]) + DigitValue(s[|s| - 1])
  }

  lemma {:induction false} UndecDec(n: nat)
    ensures Undec(Dec(n)) == n
  {
    var s := Dec(n);
    if n >= 10 {
      UndecDec(n / 10);
      assert s[..|s| - 1] == Dec(n / 10);
    }
  }

  lemma {:induction false} DecInjective(m: nat, n: nat)
    requires Dec(m) == Dec(n)
    ensures m == n
  {
    UndecDec(m);
    UndecDec(n);
  }

  lemma {:induction false} DecLength(n: nat)
    requires n < 1000
    ensures |Dec(n)| <= 3
  {
    if n >= 10 {
      assert |Dec(n / 10)| <= 2 by {
        if n >= 100 { assert Dec(n / 10) == Dec(n / 100) + [DigitChar(n / 10 % 10)]; }
      }
    }
  }

  // ---------------------------------------------------------------- macvlan_name

  /** Dots become underscores. */
  function Sanitize(s: string): (r: string)
    ensures |r| == |s| && '.' !in r
    ensures forall i :: 0 <= i < |s| && s[i] != '.' ==> r[i] == s[i]
  {
    seq(|s|, i requires 0 <= i < |s| => if s[i] == '.' then '_' else s[i])
  }

  /** Start of the trailing run of digits. */
  function DigitStart(s: string): (k: nat)
    ensures k <= |s|
    ensures forall i :: k <= i < |s| ==> IsDigit(s[i])
    ensures k > 0 ==> !IsDigit(s[k - 1])
  {
    if s != "" && IsDigit(s[|s| - 1]) then DigitStart(s[..|s| - 1]) else |s|
  }

  /** `s[:k]` with Python's reading of a negative bound. */
  function Take(s: string, k: int): string {
    if k >= |s| then s
    else if k >= 0 then s[..k]
    else if |s| + k >= 0 then s[..|s| + k]
    else ""
  }

  function Suffix(u: nat): string { "-u" + Dec(u) }

  /** None where the source raises ValueError. */
  function MacvlanName(iface: string, u: nat): Option<string> {
    var s := Sanitize(iface);
    var core := Core(s);
    var k := DigitStart(core);
    if k < |core| then
      var digits := core[k..];
      var available := MAX_IFNAME - |digits| - |Suffix(u)|;
      if available < 0 then None else Some(Take(core[..k], available) + digits + Suffix(u))
    else
      Some(Take(s, MAX_IFNAME - |Suffix(u)|) + Suffix(u))
  }

  /** The numeric suffix of a sanitized interface name and what goes before it; a final line feed is not part of the suffix. */
  function Digits(iface: string): string { Core(Sanitize(iface))[DigitStart(Core(Sanitize(iface)))..] }

  function Alpha(iface: string): string {
    if Digits(iface) == "" then Sanitize(iface) else Core(Sanitize(iface))[..DigitStart(Core(Sanitize(iface)))]
  }

  /**
   * A name can be made iff the numeric suffix and the uplink suffix fit the kernel's limit. It then ends in both whole,
   * after as much of the rest as fits, and holds no dot.
   */
  lemma MacvlanNameShape(iface: string, u: nat)
    requires u < MAX_TABLE
    ensures MacvlanName(iface, u).None? <==> Digits(iface) != "" && |Digits(iface) + Suffix(u)| > 15
    ensures MacvlanName(iface, u).Some? ==>
              var name, kept := MacvlanName(iface, u).value, Digits(iface) + Suffix(u);
              && |kept| <= |name| <= 15 && name[|name| - |kept|..] == kept && '.' !in name
              && name[..|name| - |kept|] <= Alpha(iface)
              && (|name| == 15 || name[..|name| - |kept|] == Alpha(iface))
  {
    hide MacvlanName, Digits, Alpha, Suffix, Take;
    DecLength(u);
    MacvlanNameParts(iface, u);
    SuffixShape(u);
    if MacvlanName(iface, u).Some? {
      var kept := Digits(iface) + Suffix(u);
      TakeShape(Alpha(iface), 15 - |kept|);
      var head := Take(Alpha(iface), 15 - |kept|);
      var name := head + kept;
      assert name[..|name| - |kept|] == head && name[|name| - |kept|..] == kept;
    }
  }

  lemma MacvlanNameParts(iface: string, u: nat)
    ensures MacvlanName(iface, u) ==
            if Digits(iface) != "" && |Digits(iface) + Suffix(u)| > 15 then None
            else Some(Take(Alpha(iface), 15 - |Digits(iface) + Suffix(u)|) + (Digits(iface) + Suffix(u)))
    ensures '.' !in Digits(iface) && '.' !in Alpha(iface)
  {
    hide Take, Suffix;
    var s := Sanitize(iface);
    var core := Core(s);
    var k := DigitStart(core);
    assert core <= s;
    if k < |core| {
      var head := Take(core[..k], MAX_IFNAME - |core[k..]| - |Suffix(u)|);
      assert head + core[k..] + Suffix(u) == head + (core[k..] + Suffix(u));
    } else {
      assert Digits(iface) + Suffix(u) == Suffix(u);
    }
  }

  lemma {:induction false} SuffixShape(u: nat)
    ensures '.' !in Suffix(u) && |Suffix(u)| == 2 + |Dec(u)|
  {
  }

  lemma TakeShape(s: string, k: int)
    requires k >= 0
    ensures Take(s, k) <= s && |Take(s, k)| <= k && (|Take(s, k)| == k || Take(s, k) == s)
  {
  }

  /** A name ends in its uplink's suffix. */
  lemma MacvlanNameSuffix(iface: string, u: nat) returns (stem: string)
    requires MacvlanName(iface, u).Some?
    ensures MacvlanName(iface, u).value == stem + "-u" + Dec(u)
  {
    var s := Sanitize(iface);
    var core := Core(s);
    var k := DigitStart(core);
    if k < |core| {
      stem := Take(core[..k], MAX_IFNAME - |core[k..]| - |Suffix(u)|) + core[k..];
    } else {
      stem := Take(s, MAX_IFNAME - |Suffix(u)|);
    }
    assert stem + Suffix(u) == stem + "-u" + Dec(u);
  }

  /** The suffix of a name can be read back: it fixes the uplink index. */
  lemma {:induction false} SuffixDetermines(a: string, u: nat, b: string, v: nat)
    requires a + "-u" + Dec(u) == b + "-u" + Dec(v)
    ensures u == v
  {
    var s := a + "-u" + Dec(u);
    if |Dec(u)| < |Dec(v)| {
      SuffixLengths(a, u, b, v);
    } else if |Dec(v)| < |Dec(u)| {
      SuffixLengths(b, v, a, u);
    } else {
      assert s[|a| + 2..] == Dec(u) && s[|b| + 2..] == Dec(v);
      DecInjective(u, v);
    }
  }

  lemma {:induction false} SuffixLengths(a: string, u: nat, b: string, v: nat)
    requires a + "-u" + Dec(u) == b + "-u" + Dec(v)
    ensures |Dec(u)| >= |Dec(v)|
  {
    var s := a + "-u" + Dec(u);
    var k := |a| + 1;
    assert s[k] == 'u';
    assert forall i :: |b| + 2 <= i < |s| ==> IsDigit(s[i]);
  }

  /** Names of different uplinks never collide, whatever the networks are called. */
  lemma MacvlanNamesDisjoint(f: string, u: nat, g: string, v: nat)
    requires MacvlanName(f, u).Some? && MacvlanName(f, u) == MacvlanName(g, v)
    ensures u == v
  {
    var a := MacvlanNameSuffix(f, u);
    var b := MacvlanNameSuffix(g, v);
    SuffixDetermines(a, u, b, v);
  }

  /** No macvlan is called `lo`. */
  lemma MacvlanIsNotLoopback(f: string, u: nat)
    ensures MacvlanName(f, u) != Some("lo")
  {
    if MacvlanName(f, u).Some? {
      var a := MacvlanNameSuffix(f, u);
      var s := a + "-u" + Dec(u);
      assert s[|a|] == '-';
    }
  }

  // ---------------------------------------------------------------- numbers

  function MacvlanIaid(u: nat, n: nat): nat { 0x1000 + u * 256 + n }

  function Ipv4Table(cfg: Config): int { cfg.tableStart }

  function UplinkTable(cfg: Config, u: int): int { cfg.tableStart + 1 + u }

  // ---------------------------------------------------------------- names of a configuration

  predicate Ipv6Uplink(u: Uplink) { u.ipv6Pd || u.iaNa }

  /** Name of macvlan (u, n); only meaningful where NamesExist holds. */
  function Mv(cfg: Config, u: nat, n: nat): string
    requires n < |cfg.networks|
  {
    match MacvlanName(cfg.networks[n].iface, u)
    case Some(s) => s
    case None => ""
  }

  /** Names of all macvlans of one uplink, by network. */
  function MvNames(cfg: Config, u: nat): seq<string> {
    seq(|cfg.networks|, n requires 0 <= n < |cfg.networks| => Mv(cfg, u, n))
  }

  ghost predicate NamesExist(cfg: Config, u: nat) {
    forall n :: 0 <= n < |cfg.networks| ==> MacvlanName(cfg.networks[n].iface, u).Some?
  }

  ghost predicate NamesDistinct(cfg: Config, u: nat) {
    forall n, m :: 0 <= n < m < |cfg.networks| ==> Mv(cfg, u, n) != Mv(cfg, u, m)
  }

  /** What the daemon needs: names exist and differ within every IPv6 uplink. */
  ghost predicate WellNamed(cfg: Config) {
    forall u :: 0 <= u < |cfg.uplinks| && Ipv6Uplink(cfg.uplinks[u]) ==> NamesExist(cfg, u) && NamesDistinct(cfg, u)
  }

  datatype NameCheck =
    | NamesFine
    | NoRoom(u: nat, n: nat)
    | Collision(u: nat, n: nat, first: nat, mv: string)

  ghost predicate PdPair(cfg: Config, u: int, n: int) {
    0 <= u < |cfg.uplinks| && cfg.uplinks[u].ipv6Pd && 0 <= n < |cfg.networks|
  }

  ghost predicate Before(u: int, n: int, v: int, m: int) { u < v || (u == v && n < m) }

  /** The names of all PD uplinks exist and no two of them are equal. */
  ghost predicate PdNamesFine(cfg: Config) {
    && (forall u, n :: PdPair(cfg, u, n) ==> MacvlanName(cfg.networks[n].iface, u).Some?)
    && (forall u, n, v, m :: PdPair(cfg, u, n) && PdPair(cfg, v, m) && Before(u, n, v, m)
                             ==> Mv(cfg, u, n) != Mv(cfg, v, m))
  }

  /** `seen` holds exactly the names of the PD pairs before (i, k), which are all different. */
  ghost predicate Seen(cfg: Config, seen: map<string, (nat, nat)>, i: int, k: int) {
    && (forall u, n :: PdPair(cfg, u, n) && Before(u, n, i, k) ==>
          && MacvlanName(cfg.networks[n].iface, u).Some?
          && Mv(cfg, u, n) in seen && seen[Mv(cfg, u, n)] == (u, n))
    && (forall s :: s in seen ==> PdPair(cfg, seen[s].0, seen[s].1) && Before(seen[s].0, seen[s].1, i, k)
                                  && MacvlanName(cfg.networks[seen[s].1].iface, seen[s].0) == Some(s))
  }

  lemma SeenNone(cfg: Config)
    ensures Seen(cfg, map[], 0, 0)
  {
  }

  lemma SeenStep(cfg: Config, seen: map<string, (nat, nat)>, i: nat, k: nat)
    requires Seen(cfg, seen, i, k) && PdPair(cfg, i, k)
    requires MacvlanName(cfg.networks[k].iface, i).Some? && Mv(cfg, i, k) !in seen
    ensures Seen(cfg, seen[Mv(cfg, i, k) := (i, k)], i, k + 1)
  {
    forall u, n | PdPair(cfg, u, n) && Before(u, n, i, k + 1)
      ensures Before(u, n, i, k) || (u == i && n == k)
    {
    }
  }

  /** The end of a row: every pair of uplink `i` was looked at, or there are none. */
  lemma SeenRow(cfg: Config, seen: map<string, (nat, nat)>, i: nat)
    requires i < |cfg.uplinks| && Seen(cfg, seen, i, if cfg.uplinks[i].ipv6Pd then |cfg.networks| else 0)
    ensures Seen(cfg, seen, i + 1, 0)
  {
    hide MacvlanName;
  }

  /** Only a name of the same uplink can be there already. */
  lemma SeenHit(cfg: Config, seen: map<string, (nat, nat)>, i: nat, k: nat)
    requires Accepted(cfg) && Seen(cfg, seen, i, k) && PdPair(cfg, i, k)
    requires MacvlanName(cfg.networks[k].iface, i).Some? && Mv(cfg, i, k) in seen
    ensures var (v, m) := seen[Mv(cfg, i, k)]; v == i && m < k && PdPair(cfg, i, m) && Mv(cfg, i, m) == Mv(cfg, i, k)
  {
    hide MacvlanName, UplinksDistinct;
    var (v, m) := seen[Mv(cfg, i, k)];
    MacvlanNamesDisjoint(cfg.networks[m].iface, v, cfg.networks[k].iface, i);
  }

  lemma SeenAll(cfg: Config, seen: map<string, (nat, nat)>)
    requires Seen(cfg, seen, |cfg.uplinks|, 0)
    ensures PdNamesFine(cfg)
  {
    forall u, n | PdPair(cfg, u, n) ensures Before(u, n, |cfg.uplinks|, 0) {
    }
  }

  /** validate_macvlan_names: fine iff the names of PD uplinks all exist and differ; a failure names its witness. */
  method ValidateMacvlanNames(cfg: Config) returns (r: NameCheck)
    requires Accepted(cfg)
    ensures r.NamesFine? <==> PdNamesFine(cfg)
    ensures r.NoRoom? ==> PdPair(cfg, r.u, r.n) && MacvlanName(cfg.networks[r.n].iface, r.u).None?
    ensures r.Collision? ==> PdPair(cfg, r.u, r.n) && PdPair(cfg, r.u, r.first) && r.first < r.n
                             && Mv(cfg, r.u, r.n) == Mv(cfg, r.u, r.first) == r.mv
  {
    hide MacvlanName, Seen, UplinksDistinct;
    var seen: map<string, (nat, nat)> := map[];
    assert Seen(cfg, seen, 0, 0) by { SeenNone(cfg); }
    for i := 0 to |cfg.uplinks|
      invariant Seen(cfg, seen, i, 0)
    {
      var uplink := cfg.uplinks[i];
      if uplink.ipv6Pd {
        for n := 0 to |cfg.networks|
          invariant Seen(cfg, seen, i, n)
        {
          assert PdPair(cfg, i, n);
          var mv := MacvlanName(cfg.networks[n].iface, uplink.index);
          if mv.None? { return NoRoom(i, n); }
          if mv.value in seen {
            SeenHit(cfg, seen, i, n);
            assert Before(i, seen[mv.value].1, i, n);
            return Collision(i, n, seen[mv.value].1, mv.value);
          }
          SeenStep(cfg, seen, i, n);
          seen := seen[mv.value := (i, n)];
        }
      }
      SeenRow(cfg, seen, i);
    }
    SeenAll(cfg, seen);
    r := NamesFine;
  }

  /** For every accepted configuration, passing the validation means: within each PD uplink names exist and differ. */
  lemma ValidatedIsWellNamed(cfg: Config)
    requires Accepted(cfg)
    ensures PdNamesFine(cfg) <==>
            forall u :: 0 <= u < |cfg.uplinks| && cfg.uplinks[u].ipv6Pd ==> NamesExist(cfg, u) && NamesDistinct(cfg, u)
    ensures WellNamed(cfg) <==>
            PdNamesFine(cfg) && forall u :: 0 <= u < |cfg.uplinks| && cfg.uplinks[u].iaNa && !cfg.uplinks[u].ipv6Pd ==>
                                  NamesExist(cfg, u) && NamesDistinct(cfg, u)
  {
    hide MacvlanName;
    if forall u :: 0 <= u < |cfg.uplinks| && cfg.uplinks[u].ipv6Pd ==> NamesExist(cfg, u) && NamesDistinct(cfg, u) {
      forall u, n, v, m | PdPair(cfg, u, n) && PdPair(cfg, v, m) && Before(u, n, v, m)
        ensures Mv(cfg, u, n) != Mv(cfg, v, m)
      {
        assert NamesExist(cfg, u) && NamesExist(cfg, v) && NamesDistinct(cfg, u);
        if Mv(cfg, u, n) == Mv(cfg, v, m) {
          MacvlanNamesDisjoint(cfg.networks[n].iface, u, cfg.networks[m].iface, v);
        }
      }
    }
    if PdNamesFine(cfg) {
      forall u | 0 <= u < |cfg.uplinks| && cfg.uplinks[u].ipv6Pd ensures NamesExist(cfg, u) && NamesDistinct(cfg, u) {
        forall n, m | 0 <= n < m < |cfg.networks| ensures Mv(cfg, u, n) != Mv(cfg, u, m) {
          assert PdPair(cfg, u, n) && PdPair(cfg, u, m) && Before(u, n, u, m);
        }
        assert forall n :: 0 <= n < |cfg.networks| ==> PdPair(cfg, u, n);
      }
    }
  }

  // ---------------------------------------------------------------- IAIDs

  /** No two macvlans that dhcpcd is told about share an IAID. */
  ghost predicate IaidsDistinct(cfg: Config) {
    forall u, n, v, m :: PdPair(cfg, u, n) && PdPair(cfg, v, m) && Before(u, n, v, m) ==> MacvlanIaid(u, n) != MacvlanIaid(v, m)
  }

  /** Exactly when IAIDs differ: a network index of one PD uplink must not reach the range of a later one. */
  lemma IaidsDistinctIff(cfg: Config)
    ensures IaidsDistinct(cfg) <==>
            forall u, v :: 0 <= u < v < |cfg.uplinks| && cfg.uplinks[u].ipv6Pd && cfg.uplinks[v].ipv6Pd ==>
              |cfg.networks| <= 256 * (v - u)
  {
    if IaidsDistinct(cfg) {
      forall u, v | 0 <= u < v < |cfg.uplinks| && cfg.uplinks[u].ipv6Pd && cfg.uplinks[v].ipv6Pd
        ensures |cfg.networks| <= 256 * (v - u)
      {
        if |cfg.networks| > 256 * (v - u) {
          assert PdPair(cfg, u, 256 * (v - u)) && PdPair(cfg, v, 0) && Before(u, 256 * (v - u), v, 0);
        }
      }
    }
  }
}
