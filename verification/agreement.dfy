/** What the boundary invariant and the agreement with the kernel mean together, for IPv4 and for radvd. */
module Agreement {
  import opened Wrappers
  import opened Configuration
  import opened Naming
  import opened StateMachine
  import opened Routing
  import opened Shadow
  import opened Trace
  import opened Radvd
  import opened Reconcile
  import opened Invariants
  import opened DaemonSpec
  import opened Runs

  function SharedKey(cfg: Config, u: nat): (int, int)
    requires u < |cfg.uplinks|
  {
    (Ipv4Table(cfg), cfg.uplinks[u].metric)
  }

  /** The default route that wins in `table`: the one of least metric. */
  ghost predicate Wins(m: Routes, table: int, k: (int, int)) {
    k in m && k.0 == table && forall j :: j in m && j.0 == table ==> k.1 <= j.1
  }

  /** The shared table holds one route for each UP uplink and nothing else. */
  lemma SharedTable(k: Tables, cfg: Config, c: Core, base: Tables)
    requires Accepted(cfg) && AllSettled(cfg, c, |cfg.uplinks|) && Agrees(k, cfg, c.own, base)
    ensures forall u :: 0 <= u < |cfg.uplinks| ==>
              && (HealthAt(cfg, c, u).v4.state.Up? <==> SharedKey(cfg, u) in k.routes4)
              && (HealthAt(cfg, c, u).v4.state.Up? <==> (UplinkTable(cfg, u), 0) in k.routes4)
              && (SharedKey(cfg, u) in k.routes4 ==>
                    k.routes4[SharedKey(cfg, u)].dev == cfg.uplinks[u].iface
                    && k.routes4[(UplinkTable(cfg, u), 0)] == k.routes4[SharedKey(cfg, u)])
    ensures forall q :: q in k.routes4 && q.0 == Ipv4Table(cfg) ==>
              exists u :: Up4(cfg, c.health, u) && q == SharedKey(cfg, u)
  {
    hide Accepted;
    forall u | 0 <= u < |cfg.uplinks|
      ensures (HealthAt(cfg, c, u).v4.state.Up? <==> ShOf(cfg, c.own, u).gw4.Some?)
              && RouteAt(k.routes4, SharedKey(cfg, u)) == RouteAt(k.routes4, (UplinkTable(cfg, u), 0)) == WantRoute4(cfg, c.own, u)
    {
      assert SettledAt(cfg, c, u);
      OwnerOfKey4(cfg, u, SharedKey(cfg, u));
      OwnerOfKey4(cfg, u, (UplinkTable(cfg, u), 0));
      assert RouteAt(k.routes4, SharedKey(cfg, u)) == ExpectRoute4(cfg, c.own, base.routes4, SharedKey(cfg, u));
    }
    forall q | q in k.routes4 && q.0 == Ipv4Table(cfg)
      ensures exists u :: Up4(cfg, c.health, u) && q == SharedKey(cfg, u)
    {
      assert RouteAt(k.routes4, q) == ExpectRoute4(cfg, c.own, base.routes4, q);
      var u := Owner4(cfg, q).value;
      assert Up4(cfg, c.health, u);
    }
  }

  /** The primary by health is the uplink the kernel forwards by: routes are keyed by metric but deleted by interface. */
  lemma Ipv4Agreement(k: Tables, d: DaemonState, base: Tables)
    requires Boundary(d) && Agrees(k, d.cfg, d.core.own, base)
    ensures match PrimaryIpv4(d.cfg, d.core.health)
            case Some(u) =>
              && d.primary4 == Some(d.cfg.uplinks[u].name)
              && Wins(k.routes4, Ipv4Table(d.cfg), SharedKey(d.cfg, u))
              && k.routes4[SharedKey(d.cfg, u)].dev == d.cfg.uplinks[u].iface
            case None =>
              && d.primary4 == None
              && forall q :: q in k.routes4 ==> q.0 != Ipv4Table(d.cfg)
    ensures forall q, u :: Wins(k.routes4, Ipv4Table(d.cfg), q) && PrimaryIpv4(d.cfg, d.core.health) == Some(u) ==> q == SharedKey(d.cfg, u)
  {
    hide RecordOk, LinksOk, Accepted, Agrees, TiersCurrent;
    SharedTable(k, d.cfg, d.core, base);
    var p := PrimaryIpv4(d.cfg, d.core.health);
    if p.Some? {
      assert Up4(d.cfg, d.core.health, p.value);
      assert SharedKey(d.cfg, p.value) in k.routes4;
      forall q | q in k.routes4 && q.0 == Ipv4Table(d.cfg) ensures d.cfg.uplinks[p.value].metric <= q.1 {
        var v :| Up4(d.cfg, d.core.health, v) && q == SharedKey(d.cfg, v);
      }
    }
  }

  /** Once the files were written for this configuration they rank the uplinks as their health does. */
  lemma TierAgreement(d: DaemonState)
    requires Boundary(d) && d.regenerated
    ensures d.primary6.Some? <==> exists u :: Up6(d.cfg, d.core.health, u)
    ensures forall u :: PdUplink(d.cfg, u) ==>
              ((forall b :: b in d.conf[d.cfg.uplinks[u].name] ==> b.preference.High?) <==> d.primary6 == Some(d.cfg.uplinks[u].name))
    ensures d.cfg.exclusivePreferredPd ==>
              forall u, b :: PdUplink(d.cfg, u) && d.primary6 != Some(d.cfg.uplinks[u].name) && b in d.conf[d.cfg.uplinks[u].name] ==>
                b.defaultLifetime == 0 && b.preferred == 0
  {
    hide CoreOk, TiersCurrent;
    OneHigh(d.cfg, d.core.health, d.conf);
    var p := PrimaryIpv6(d.cfg, d.core.health);
    assert d.primary6 == NameAt(d.cfg, p);
    forall u | PdUplink(d.cfg, u) ensures d.primary6 == Some(d.cfg.uplinks[u].name) <==> p == Some(u) {
    }
  }

  // ---------------------------------------------------------------- events

  /** No event of a run is unaccounted for: every `wan-up` comes after enough successes in a row, uninterrupted by a failure,
      a `wan-down` or a reset. */
  lemma {:induction false} WanUpIsEarned(d: DaemonState, k: nat, name: string, f: Family)
    requires Boundary(d) && k < |d.core.trace| && d.core.trace[k] == Fired(Wan(name, f, Up))
    ensures exists from :: 0 <= from <= k && CleanSince(d.core.trace[..k], from, name, f)
                           && Oks(d.core.trace[..k][from..], name, f) >= Effective(Threshold(d.core.trace[..k]))
  {
    hide Threshold, Oks, CleanSince, RecordOk, TiersCurrent, PrimariesOk, Accepted, OkRun;
    var t := d.core.trace;
    assert EarnedAt(t[..k], t[k]);
    OkRunMeans(t[..k], name, f);
  }
}
