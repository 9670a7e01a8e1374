/** routing.py: the kernel's rule lists and routes, and the `ip` commands the daemon issues on them. */
module Routing {
  import opened Wrappers

  datatype Prefix = Prefix(addr: string, len: int)

  datatype Source = Anywhere | FromAddr(addr: string) | FromPrefix(prefix: Prefix)

  datatype Action = MainNoDefault | Lookup(table: int) | Prohibit

  datatype Rule = Rule(source: Source, iif: Option<string>, action: Action)

  datatype Route = Route(gateway: string, dev: string, expires: Option<int>)

  /** Rules of one priority in order of insertion. */
  type Rules = map<int, seq<Rule>>

  /** Default routes by (table, metric). */
  type Routes = map<(int, int), Route>

  datatype Tables = Tables(rules4: Rules, rules6: Rules, routes4: Routes, routes6: Routes)

  /** The metric the kernel gives an IPv6 route that was added without one. */
  const DEFAULT_METRIC6 := 1024

  const LOOPBACK := "lo"

  // ---------------------------------------------------------------- effect of one command

  function At(rs: Rules, p: int): seq<Rule> { if p in rs then rs[p] else [] }

  function AddRule(rs: Rules, p: int, r: Rule): Rules { rs[p := At(rs, p) + [r]] }

  /** Deletion by priority alone removes the first rule found there, whoever put it in. */
  function DelRule(rs: Rules, p: int): Rules {
    if |At(rs, p)| <= 1 then rs - {p} else rs[p := rs[p][1..]]
  }

  /** An optional delete followed by an optional add at one priority. */
  function Swapped(rs: Rules, p: int, del: bool, add: Option<Rule>): Rules {
    var r := if del then DelRule(rs, p) else rs;
    if add.Some? then AddRule(r, p, add.value) else r
  }

  ghost predicate Normal(rs: Rules) {
    forall p :: p in rs ==> rs[p] != []
  }

  /** A default route of `table` through `dev` that no other such route undercuts. */
  ghost predicate BestVia(m: Routes, k: (int, int), table: int, dev: string) {
    && k in m && k.0 == table && m[k].dev == dev
    && forall j :: j in m && j.0 == table && m[j].dev == dev ==> k.1 <= j.1
  }

  /** Deletion by (dev, table) removes the first match, which is the one of lowest metric. */
  ghost function DelRoute(m: Routes, table: int, dev: string): Routes {
    if k :| BestVia(m, k, table, dev) then m - {k} else m
  }

  // ---------------------------------------------------------------- rules

  function MainRule(): Rule { Rule(Anywhere, None, MainNoDefault) }

  function TableRule(table: int): Rule { Rule(Anywhere, None, Lookup(table)) }

  function LoRule4(addr: string, table: int): Rule { Rule(FromAddr(addr), Some(LOOPBACK), Lookup(table)) }

  function LoRule6(p: Prefix, table: int): Rule { Rule(FromPrefix(p), Some(LOOPBACK), Lookup(table)) }

  function FwdRule(mv: string, table: int, p: Option<Prefix>): Rule {
    Rule(if p.Some? then FromPrefix(p.value) else Anywhere, Some(mv), Lookup(table))
  }

  function ProhibitRule(mv: string): Rule { Rule(Anywhere, Some(mv), Prohibit) }

  // ---------------------------------------------------------------- the kernel

  class Kernel {
    var rules4: Rules
    var rules6: Rules
    var routes4: Routes
    var routes6: Routes
    /** Commands issued, not counting the refresh of an IPv6 route. */
    ghost var commands: nat

    ghost function Val(): Tables
      reads this
    {
      Tables(rules4, rules6, routes4, routes6)
    }

    method AddIpv4PolicyRules(internalPriority: int, fwdPriority: int, table: int)
      modifies this
      ensures Val() == old(Val()).(rules4 := AddRule(AddRule(old(rules4), internalPriority, MainRule()), fwdPriority, TableRule(table)))
      ensures commands == old(commands) + 2
    {
      rules4 := AddRule(rules4, internalPriority, MainRule());
      rules4 := AddRule(rules4, fwdPriority, TableRule(table));
      commands := commands + 2;
    }

    method DelIpv4PolicyRules(internalPriority: int, fwdPriority: int)
      modifies this
      ensures Val() == old(Val()).(rules4 := DelRule(DelRule(old(rules4), internalPriority), fwdPriority))
      ensures commands == old(commands) + 2
    {
      rules4 := DelRule(rules4, internalPriority);
      rules4 := DelRule(rules4, fwdPriority);
      commands := commands + 2;
    }

    method AddRule4(priority: int, r: Rule)
      modifies this
      ensures Val() == old(Val()).(rules4 := AddRule(old(rules4), priority, r))
      ensures commands == old(commands) + 1
    {
      rules4 := AddRule(rules4, priority, r);
      commands := commands + 1;
    }

    method DelIpv4Rule(priority: int)
      modifies this
      ensures Val() == old(Val()).(rules4 := DelRule(old(rules4), priority))
      ensures commands == old(commands) + 1
    {
      rules4 := DelRule(rules4, priority);
      commands := commands + 1;
    }

    method AddRule6(priority: int, r: Rule)
      modifies this
      ensures Val() == old(Val()).(rules6 := AddRule(old(rules6), priority, r))
      ensures commands == old(commands) + 1
    {
      rules6 := AddRule(rules6, priority, r);
      commands := commands + 1;
    }

    method DelIpv6Rule(priority: int)
      modifies this
      ensures Val() == old(Val()).(rules6 := DelRule(old(rules6), priority))
      ensures commands == old(commands) + 1
    {
      rules6 := DelRule(rules6, priority);
      commands := commands + 1;
    }

    /** The pattern of all incremental rule updates: take out what is recorded, then put in what is wanted. */
    method Swap6(priority: int, del: bool, add: Option<Rule>)
      modifies this
      ensures Val() == old(Val()).(rules6 := Swapped(old(rules6), priority, del, add))
      ensures commands == old(commands) + (if del then 1 else 0) + (if add.Some? then 1 else 0)
    {
      if del {
        DelIpv6Rule(priority);
      }
      if add.Some? {
        AddRule6(priority, add.value);
      }
    }

    method Swap4(priority: int, del: bool, add: Option<Rule>)
      modifies this
      ensures Val() == old(Val()).(rules4 := Swapped(old(rules4), priority, del, add))
      ensures commands == old(commands) + (if del then 1 else 0) + (if add.Some? then 1 else 0)
    {
      if del {
        DelIpv4Rule(priority);
      }
      if add.Some? {
        AddRule4(priority, add.value);
      }
    }

    /** `ip route replace` overwrites the route of the same table and metric, whatever its device. */
    method ReplaceIpv4Route(gateway: string, dev: string, metric: int, table: int)
      modifies this
      ensures Val() == old(Val()).(routes4 := old(routes4)[(table, metric) := Route(gateway, dev, None)])
      ensures commands == old(commands) + 1
    {
      routes4 := routes4[(table, metric) := Route(gateway, dev, None)];
      commands := commands + 1;
    }

    method DelIpv4Route(dev: string, table: int)
      modifies this
      ensures Val() == old(Val()).(routes4 := DelRoute(old(routes4), table, dev))
      ensures commands == old(commands) + 1
    {
      routes4 := RemoveBest(routes4, table, dev);
      commands := commands + 1;
    }

    method ReplaceIpv6Route(gateway: string, dev: string, table: int, lifetime: int, remaining: int)
      modifies this
      ensures Val() == old(Val()).(routes6 := old(routes6)[(table, DEFAULT_METRIC6) :=
                                                   Route(gateway, dev, if lifetime != 0 then Some(remaining) else None)])
      ensures commands == old(commands)
    {
      routes6 := routes6[(table, DEFAULT_METRIC6) := Route(gateway, dev, if lifetime != 0 then Some(remaining) else None)];
    }

    method DelIpv6Route(dev: string, table: int)
      modifies this
      ensures Val() == old(Val()).(routes6 := DelRoute(old(routes6), table, dev))
      ensures commands == old(commands) + 1
    {
      routes6 := RemoveBest(routes6, table, dev);
      commands := commands + 1;
    }

    /** The environment: a route that carries an expiry may vanish at any time. */
    method Expire(keys: set<(int, int)>)
      modifies this
      ensures Val() == old(Val()).(routes6 := Expired(old(routes6), keys))
      ensures commands == old(commands)
    {
      routes6 := Expired(routes6, keys);
    }
  }

  function Expired(m: Routes, keys: set<(int, int)>): Routes {
    map k | k in m && !(k in keys && m[k].expires.Some?) :: m[k]
  }

  method RemoveBest(m: Routes, table: int, dev: string) returns (r: Routes)
    ensures r == DelRoute(m, table, dev)
  {
    var best: Option<(int, int)> := None;
    var todo := m.Keys;
    while todo != {}
      invariant todo <= m.Keys
      invariant best.Some? ==> best.value in m && best.value.0 == table && m[best.value].dev == dev
      invariant forall j :: j in m && j !in todo && j.0 == table && m[j].dev == dev ==> best.Some? && best.value.1 <= j.1
      decreases todo
    {
      var k :| k in todo;
      if k.0 == table && m[k].dev == dev && (best.None? || k.1 < best.value.1) {
        best := Some(k);
      }
      todo := todo - {k};
    }
    match best
    case None => r := m;
    case Some(k) =>
      assert BestVia(m, k, table, dev);
      assert forall j :: BestVia(m, j, table, dev) ==> j == k;
      r := m - {k};
  }
}
