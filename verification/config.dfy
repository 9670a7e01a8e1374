/** config.py: the accepted configuration and the parse loops that establish it. */
module Configuration {
  import opened Wrappers

  datatype Network = Network(name: string, iface: string)

  datatype Uplink = Uplink(name: string, iface: string, ipv6Pd: bool, pdHint: int, iaNa: bool, metric: int, index: nat)

  datatype Config = Config(
    tableStart: int,
    prioStart: int,
    rejectWrongPdSrc: bool,
    exclusivePreferredPd: bool,
    radvdMinInterval: int,
    hookTimeout: int,
    interval: int,
    failureThreshold: int,
    recoveryThreshold: int,
    networks: seq<Network>,
    uplinks: seq<Uplink>)

  const DEFAULT_METRIC_MULTIPLIER := 100
  const MAX_TABLE := 252

  // ---------------------------------------------------------------- accepted configurations

  /** Everything the rest of the daemon relies on about a loaded configuration. */
  ghost predicate Accepted(cfg: Config) {
    && |cfg.networks| > 0
    && |cfg.uplinks| > 0
    && 1 <= cfg.tableStart
    && cfg.tableStart + |cfg.uplinks| <= MAX_TABLE
    && 0 < cfg.hookTimeout
    && (forall i :: 0 <= i < |cfg.uplinks| ==> cfg.uplinks[i].index == i && cfg.uplinks[i].metric > 0)
    && UplinksDistinct(cfg.uplinks)
  }

  ghost predicate UplinksDistinct(us: seq<Uplink>) {
    forall i, j :: 0 <= i < j < |us| ==>
      us[i].name != us[j].name && us[i].iface != us[j].iface && us[i].metric != us[j].metric
  }

  // ---------------------------------------------------------------- names and interfaces

  predicate IsAlnum(c: char) {
    'a' <= c <= 'z' || 'A' <= c <= 'Z' || '0' <= c <= '9'
  }

  predicate NameChar(c: char) { IsAlnum(c) || c == '-' }

  predicate IfaceChar(c: char) { IsAlnum(c) || c in "._:-" }

  /** The text a regex anchored with `$` matches: a final line feed is tolerated. */
  function Core(s: string): string {
    if |s| > 0 && s[|s| - 1] == '\n' then s[..|s| - 1] else s
  }

  predicate NameOk(s: string) {
    var t := Core(s);
    |t| > 0 && forall i :: 0 <= i < |t| ==> NameChar(t[i])
  }

  predicate IfaceOk(s: string) {
    var t := Core(s);
    |s| <= 15 && 1 <= |t| <= 15 && IsAlnum(t[0]) && forall i :: 1 <= i < |t| ==> IfaceChar(t[i])
  }

  // ---------------------------------------------------------------- raw entries

  datatype RawNetwork = RawNetwork(name: string, iface: string)

  datatype RawUplink = RawUplink(name: string, iface: string, ipv6Pd: bool, pdHint: int, iaNa: bool, metric: Option<int>)

  datatype Reason =
    | MissingName | BadName | DuplicateName
    | MissingIface | BadIface | DuplicateIface
    | BadMetric | DuplicateMetric | BadPdHint
    | BadTableStart | BadHookTimeout | NoNetworks | NoUplinks | TablesExhausted

  datatype Error = Error(index: int, reason: Reason)

  function MetricOf(raw: seq<RawUplink>, i: nat): int
    requires i < |raw|
  {
    match raw[i].metric
    case Some(m) => m
    case None => DEFAULT_METRIC_MULTIPLIER * (i + 1)
  }

  function UplinkOf(raw: seq<RawUplink>, i: nat): Uplink
    requires i < |raw|
  {
    var e := raw[i];
    Uplink(e.name, e.iface, e.ipv6Pd, e.pdHint, e.iaNa, MetricOf(raw, i), i)
  }

  /** Why entry `i` is refused, if every earlier entry was accepted; the order is the order of the checks. */
  ghost function UplinkFault(raw: seq<RawUplink>, i: nat): Option<Reason>
    requires i < |raw|
  {
    var e := raw[i];
    if e.name == "" then Some(MissingName)
    else if !NameOk(e.name) then Some(BadName)
    else if exists j: nat :: j < i && raw[j].name == e.name then Some(DuplicateName)
    else if e.iface == "" then Some(MissingIface)
    else if !IfaceOk(e.iface) then Some(BadIface)
    else if exists j: nat :: j < i && raw[j].iface == e.iface then Some(DuplicateIface)
    else if MetricOf(raw, i) <= 0 then Some(BadMetric)
    else if exists j: nat :: j < i && MetricOf(raw, j) == MetricOf(raw, i) then Some(DuplicateMetric)
    else if !(0 < e.pdHint <= 64) then Some(BadPdHint)
    else None
  }

  ghost function NetworkFault(raw: seq<RawNetwork>, i: nat): Option<Reason>
    requires i < |raw|
  {
    var e := raw[i];
    if e.name == "" then Some(MissingName)
    else if e.iface == "" then Some(MissingIface)
    else if !IfaceOk(e.iface) then Some(BadIface)
    else None
  }

  /** The checks on one entry, against the sets collected from the entries before it. */
  method CheckUplink(raw: seq<RawUplink>, i: nat, seenNames: set<string>, seenIfaces: set<string>, seenMetrics: set<int>)
    returns (fault: Option<Reason>)
    requires i < |raw|
    requires forall s :: s in seenNames <==> exists j: nat :: j < i && raw[j].name == s
    requires forall s :: s in seenIfaces <==> exists j: nat :: j < i && raw[j].iface == s
    requires forall m :: m in seenMetrics <==> exists j: nat :: j < i && MetricOf(raw, j) == m
    ensures fault == UplinkFault(raw, i)
  {
    var e := raw[i];
    var metric := MetricOf(raw, i);
    if e.name == "" { return Some(MissingName); }
    if !NameOk(e.name) { return Some(BadName); }
    if e.name in seenNames { return Some(DuplicateName); }
    if e.iface == "" { return Some(MissingIface); }
    if !IfaceOk(e.iface) { return Some(BadIface); }
    if e.iface in seenIfaces { return Some(DuplicateIface); }
    if metric <= 0 { return Some(BadMetric); }
    if metric in seenMetrics { return Some(DuplicateMetric); }
    if !(0 < e.pdHint <= 64) { return Some(BadPdHint); }
    fault := None;
  }

  /** The list is accepted exactly when no entry has a fault; otherwise the first faulty entry is reported. */
  method ParseUplinks(raw: seq<RawUplink>) returns (r: Result<seq<Uplink>, Error>)
    ensures r.Ok? <==> forall i: nat :: i < |raw| ==> UplinkFault(raw, i).None?
    ensures r.Ok? ==> r.value == seq(|raw|, i requires 0 <= i < |raw| => UplinkOf(raw, i)) && UplinksDistinct(r.value)
    ensures r.Err? ==> 0 <= r.error.index < |raw| && UplinkFault(raw, r.error.index) == Some(r.error.reason)
                       && forall j: nat :: j < r.error.index ==> UplinkFault(raw, j).None?
  {
    hide UplinkFault;
    var uplinks: seq<Uplink> := [];
    var seenNames: set<string>, seenIfaces: set<string>, seenMetrics: set<int> := {}, {}, {};
    for i := 0 to |raw|
      invariant |uplinks| == i
      invariant forall j: nat :: j < i ==> uplinks[j] == UplinkOf(raw, j) && UplinkFault(raw, j).None?
      invariant forall s :: s in seenNames <==> exists j: nat :: j < i && raw[j].name == s
      invariant forall s :: s in seenIfaces <==> exists j: nat :: j < i && raw[j].iface == s
      invariant forall m :: m in seenMetrics <==> exists j: nat :: j < i && MetricOf(raw, j) == m
    {
      var e := raw[i];
      var fault := CheckUplink(raw, i, seenNames, seenIfaces, seenMetrics);
      if fault.Some? { return Err(Error(i, fault.value)); }
      seenNames, seenIfaces := seenNames + {e.name}, seenIfaces + {e.iface};
      seenMetrics := seenMetrics + {MetricOf(raw, i)};
      uplinks := uplinks + [Uplink(e.name, e.iface, e.ipv6Pd, e.pdHint, e.iaNa, MetricOf(raw, i), i)];
    }
    NoFaultIsDistinct(raw, uplinks);
    r := Ok(uplinks);
  }

  lemma NoFaultIsDistinct(raw: seq<RawUplink>, us: seq<Uplink>)
    requires |us| == |raw| && forall i: nat :: i < |raw| ==> us[i] == UplinkOf(raw, i) && UplinkFault(raw, i).None?
    ensures UplinksDistinct(us)
  {
    forall i: nat, j: nat | i < j < |us|
      ensures us[i].name != us[j].name && us[i].iface != us[j].iface && us[i].metric != us[j].metric
    {
      assert us[j] == UplinkOf(raw, j) && UplinkFault(raw, j).None?;
      assert us[i] == UplinkOf(raw, i) && MetricOf(raw, i) == us[i].metric;
    }
  }

  method ParseNetworks(raw: seq<RawNetwork>) returns (r: Result<seq<Network>, Error>)
    ensures r.Ok? <==> forall i: nat :: i < |raw| ==> NetworkFault(raw, i).None?
    ensures r.Ok? ==> r.value == seq(|raw|, i requires 0 <= i < |raw| => Network(raw[i].name, raw[i].iface))
    ensures r.Err? ==> 0 <= r.error.index < |raw| && NetworkFault(raw, r.error.index) == Some(r.error.reason)
                       && forall j: nat :: j < r.error.index ==> NetworkFault(raw, j).None?
  {
    var networks: seq<Network> := [];
    for i := 0 to |raw|
      invariant |networks| == i
      invariant forall j: nat :: j < i ==> networks[j] == Network(raw[j].name, raw[j].iface) && NetworkFault(raw, j).None?
    {
      ghost var fault := NetworkFault(raw, i);
      if raw[i].name == "" { return Err(Error(i, MissingName)); }
      if raw[i].iface == "" { return Err(Error(i, MissingIface)); }
      if !IfaceOk(raw[i].iface) { return Err(Error(i, BadIface)); }
      networks := networks + [Network(raw[i].name, raw[i].iface)];
    }
    r := Ok(networks);
  }

  /** The scalar settings after `int()`/`bool()` conversion and defaulting, plus the two lists. */
  datatype RawConfig = RawConfig(scalars: Config, networks: seq<RawNetwork>, uplinks: seq<RawUplink>)

  ghost predicate NetworksFine(raw: RawConfig) {
    forall i: nat :: i < |raw.networks| ==> NetworkFault(raw.networks, i).None?
  }

  ghost predicate UplinksFine(raw: RawConfig) {
    forall i: nat :: i < |raw.uplinks| ==> UplinkFault(raw.uplinks, i).None?
  }

  /** The configurations that are accepted. */
  ghost predicate Loads(raw: RawConfig) {
    && 1 <= raw.scalars.tableStart && raw.scalars.tableStart + |raw.uplinks| <= MAX_TABLE
    && 0 < raw.scalars.hookTimeout
    && |raw.networks| > 0 && |raw.uplinks| > 0
    && NetworksFine(raw) && UplinksFine(raw)
  }

  /** What an accepted configuration becomes. */
  function Loaded(raw: RawConfig): Config {
    raw.scalars.(networks := seq(|raw.networks|, i requires 0 <= i < |raw.networks| =>
                               Network(raw.networks[i].name, raw.networks[i].iface)),
                 uplinks := seq(|raw.uplinks|, i requires 0 <= i < |raw.uplinks| => UplinkOf(raw.uplinks, i)))
  }

  /** The error reported is the first that applies in the order of the checks; of a list, that of its first faulty entry. */
  ghost predicate FirstError(raw: RawConfig, e: Error) {
    if !(1 <= raw.scalars.tableStart <= MAX_TABLE) then e == Error(-1, BadTableStart)
    else if raw.scalars.hookTimeout <= 0 then e == Error(-1, BadHookTimeout)
    else if !NetworksFine(raw) then
      && 0 <= e.index < |raw.networks| && NetworkFault(raw.networks, e.index) == Some(e.reason)
      && forall j: nat :: j < e.index ==> NetworkFault(raw.networks, j).None?
    else if !UplinksFine(raw) then
      && 0 <= e.index < |raw.uplinks| && UplinkFault(raw.uplinks, e.index) == Some(e.reason)
      && forall j: nat :: j < e.index ==> UplinkFault(raw.uplinks, j).None?
    else e == Error(-1, if |raw.networks| == 0 then NoNetworks else if |raw.uplinks| == 0 then NoUplinks else TablesExhausted)
  }

  method Load(raw: RawConfig) returns (r: Result<Config, Error>)
    ensures r.Ok? <==> Loads(raw)
    ensures r.Ok? ==> r.value == Loaded(raw) && Accepted(r.value)
    ensures r.Ok? ==>
              && |r.value.uplinks| == |raw.uplinks| && |r.value.networks| == |raw.networks|
              && forall i :: 0 <= i < |raw.uplinks| ==>
                   var e, u := raw.uplinks[i], r.value.uplinks[i];
                   && u.name == e.name && u.iface == e.iface && u.ipv6Pd == e.ipv6Pd && u.pdHint == e.pdHint && u.iaNa == e.iaNa
                   && u.index == i && u.metric == e.metric.UnwrapOr(100 * (i + 1))
    ensures r.Err? ==> FirstError(raw, r.error)
  {
    hide UplinkFault, NetworkFault;
    var s := raw.scalars;
    if !(1 <= s.tableStart <= MAX_TABLE) { return Err(Error(-1, BadTableStart)); }
    if s.hookTimeout <= 0 { return Err(Error(-1, BadHookTimeout)); }
    var ns := ParseNetworks(raw.networks);
    if ns.Err? { return Err(ns.error); }
    var us := ParseUplinks(raw.uplinks);
    if us.Err? { return Err(us.error); }
    if ns.value == [] { return Err(Error(-1, NoNetworks)); }
    if us.value == [] { return Err(Error(-1, NoUplinks)); }
    if s.tableStart + |us.value| > MAX_TABLE { return Err(Error(-1, TablesExhausted)); }
    LoadedIsAccepted(raw);
    r := Ok(s.(networks := ns.value, uplinks := us.value));
  }

  /** The entries of both lists are well formed: names and interfaces, positive metrics, hints from 1 to 64. */
  predicate WellFormed(raw: RawConfig) {
    && (forall i :: 0 <= i < |raw.networks| ==>
          raw.networks[i].name != "" && raw.networks[i].iface != "" && IfaceOk(raw.networks[i].iface))
    && (forall i :: 0 <= i < |raw.uplinks| ==>
          var e := raw.uplinks[i];
          && e.name != "" && NameOk(e.name) && e.iface != "" && IfaceOk(e.iface) && 0 < e.pdHint <= 64
          && (e.metric.Some? ==> e.metric.value > 0))
  }

  /** No two uplinks share a name, an interface or a metric; a missing metric is 100 times the entry's number. */
  predicate NothingTwice(us: seq<RawUplink>) {
    forall i, j :: 0 <= i < j < |us| ==>
      && us[i].name != us[j].name && us[i].iface != us[j].iface
      && us[i].metric.UnwrapOr(100 * (i + 1)) != us[j].metric.UnwrapOr(100 * (j + 1))
  }

  lemma FineIff(raw: RawConfig)
    ensures NetworksFine(raw) && UplinksFine(raw) <==> WellFormed(raw) && NothingTwice(raw.uplinks)
  {
    hide NameOk, IfaceOk;
    forall i: nat | i < |raw.uplinks|
      ensures MetricOf(raw.uplinks, i) == raw.uplinks[i].metric.UnwrapOr(100 * (i + 1))
    {
    }
    if NetworksFine(raw) && UplinksFine(raw) {
      forall i | 0 <= i < |raw.networks|
        ensures raw.networks[i].name != "" && raw.networks[i].iface != "" && IfaceOk(raw.networks[i].iface)
      {
        assert NetworkFault(raw.networks, i).None?;
      }
      forall i | 0 <= i < |raw.uplinks|
        ensures var e := raw.uplinks[i];
                && e.name != "" && NameOk(e.name) && e.iface != "" && IfaceOk(e.iface) && 0 < e.pdHint <= 64
                && (e.metric.Some? ==> e.metric.value > 0)
      {
        assert UplinkFault(raw.uplinks, i).None?;
      }
      forall i, j | 0 <= i < j < |raw.uplinks|
        ensures raw.uplinks[i].name != raw.uplinks[j].name && raw.uplinks[i].iface != raw.uplinks[j].iface
                && MetricOf(raw.uplinks, i) != MetricOf(raw.uplinks, j)
      {
        assert UplinkFault(raw.uplinks, j).None?;
      }
    }
    if WellFormed(raw) && NothingTwice(raw.uplinks) {
      forall j: nat | j < |raw.uplinks| ensures UplinkFault(raw.uplinks, j).None? {
      }
      forall i: nat | i < |raw.networks| ensures NetworkFault(raw.networks, i).None? {
      }
    }
  }

  /** What acceptance takes, entry by entry and pair by pair, in no order. */
  lemma LoadsIff(raw: RawConfig)
    ensures Loads(raw) <==>
            && 1 <= raw.scalars.tableStart && raw.scalars.tableStart + |raw.uplinks| <= 252 && 0 < raw.scalars.hookTimeout
            && |raw.networks| > 0 && |raw.uplinks| > 0
            && WellFormed(raw) && NothingTwice(raw.uplinks)
  {
    FineIff(raw);
    hide NetworksFine, UplinksFine, WellFormed, NothingTwice;
  }

  lemma LoadedIsAccepted(raw: RawConfig)
    requires Loads(raw)
    ensures Accepted(Loaded(raw))
  {
    var us := Loaded(raw).uplinks;
    NoFaultIsDistinct(raw.uplinks, us);
    assert forall i :: 0 <= i < |us| ==> UplinkFault(raw.uplinks, i).None? && us[i] == UplinkOf(raw.uplinks, i);
  }
}
