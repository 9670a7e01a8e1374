/** statemachine.py: per-link hysteresis. The automaton keeps two counters; its meaning is given by the probe history. */
module StateMachine {

  datatype LinkState = Up | Down

  datatype Family = V4 | V6

  datatype Link = Link(state: LinkState, failures: nat, successes: nat)

  datatype Health = Health(v4: Link, v6: Link)

  const FRESH := Link(Up, 0, 0)

  /** The counters after a forced DOWN (daemon.py, `_force_link_down`). */
  const FORCED := Link(Down, 0, 0)

  /** A threshold below one acts as one: the counter is compared after it was incremented. */
  function Effective(threshold: int): nat { if threshold < 1 then 1 else threshold }

  function Step(l: Link, ok: bool, failureThreshold: int, recoveryThreshold: int): Link {
    if ok then
      if l.state.Down? && l.successes + 1 >= recoveryThreshold then Link(Up, 0, 0)
      else Link(l.state, 0, l.successes + 1)
    else
      if l.state.Up? && l.failures + 1 >= failureThreshold then Link(Down, 0, 0)
      else Link(l.state, l.failures + 1, 0)
  }

  class UplinkState {
    const name: string
    var ipv4: LinkState
    var ipv6: LinkState
    var ipv4ConsecutiveFailures: nat
    var ipv4ConsecutiveSuccesses: nat
    var ipv6ConsecutiveFailures: nat
    var ipv6ConsecutiveSuccesses: nat

    constructor (name: string)
      ensures this.name == name && Val() == Health(FRESH, FRESH)
    {
      this.name := name;
      ipv4, ipv4ConsecutiveFailures, ipv4ConsecutiveSuccesses := Up, 0, 0;
      ipv6, ipv6ConsecutiveFailures, ipv6ConsecutiveSuccesses := Up, 0, 0;
    }

    function LinkOf(f: Family): Link
      reads this
    {
      match f
      case V4 => Link(ipv4, ipv4ConsecutiveFailures, ipv4ConsecutiveSuccesses)
      case V6 => Link(ipv6, ipv6ConsecutiveFailures, ipv6ConsecutiveSuccesses)
    }

    ghost function Val(): Health
      reads this
    {
      Health(LinkOf(V4), LinkOf(V6))
    }

    /** The `setattr` calls of the source on one family's three attributes. */
    method SetLink(f: Family, l: Link)
      modifies this
      ensures LinkOf(f) == l
      ensures forall g :: g != f ==> LinkOf(g) == old(LinkOf(g))
    {
      match f
      case V4 => ipv4, ipv4ConsecutiveFailures, ipv4ConsecutiveSuccesses := l.state, l.failures, l.successes;
      case V6 => ipv6, ipv6ConsecutiveFailures, ipv6ConsecutiveSuccesses := l.state, l.failures, l.successes;
    }

    method UpdateLink(f: Family, ok: bool, failureThreshold: int, recoveryThreshold: int) returns (changed: bool)
      modifies this
      ensures LinkOf(f) == Step(old(LinkOf(f)), ok, failureThreshold, recoveryThreshold)
      ensures forall g :: g != f ==> LinkOf(g) == old(LinkOf(g))
      ensures changed <==> LinkOf(f).state != old(LinkOf(f)).state
    {
      var l := LinkOf(f);
      if ok {
        l := l.(failures := 0, successes := l.successes + 1);
        if l.state == Down && l.successes >= recoveryThreshold {
          SetLink(f, l.(state := Up, successes := 0));
          return true;
        }
      } else {
        l := l.(successes := 0, failures := l.failures + 1);
        if l.state == Up && l.failures >= failureThreshold {
          SetLink(f, l.(state := Down, failures := 0));
          return true;
        }
      }
      SetLink(f, l);
      changed := false;
    }

    method Update(ipv4Ok: bool, ipv6Ok: bool, ipv6Enabled: bool, failureThreshold: int, recoveryThreshold: int)
      returns (ipv4Changed: bool, ipv6Changed: bool)
      modifies this
      ensures LinkOf(V4) == Step(old(LinkOf(V4)), ipv4Ok, failureThreshold, recoveryThreshold)
      ensures LinkOf(V6) == if ipv6Enabled then Step(old(LinkOf(V6)), ipv6Ok, failureThreshold, recoveryThreshold)
                            else old(LinkOf(V6))
      ensures ipv4Changed <==> LinkOf(V4).state != old(LinkOf(V4)).state
      ensures ipv6Changed <==> LinkOf(V6).state != old(LinkOf(V6)).state
    {
      ipv4Changed := UpdateLink(V4, ipv4Ok, failureThreshold, recoveryThreshold);
      ipv6Changed := false;
      if ipv6Enabled {
        ipv6Changed := UpdateLink(V6, ipv6Ok, failureThreshold, recoveryThreshold);
      }
    }
  }

  // ---------------------------------------------------------------- meaning as a function of the probe history

  function Run(h: seq<bool>, F: int, R: int): Link {
    if h == [] then FRESH else Step(Run(h[..|h| - 1], F, R), h[|h| - 1], F, R)
  }

  /** The last max(1, F) probes before time `e` all failed. */
  predicate FailWindow(h: seq<bool>, e: int, F: int) {
    Effective(F) <= e <= |h| && forall i :: e - Effective(F) <= i < e ==> !h[i]
  }

  /** The last max(1, R) probes before time `e` all succeeded. */
  predicate OkWindow(h: seq<bool>, e: int, R: int) {
    Effective(R) <= e <= |h| && forall i :: e - Effective(R) <= i < e ==> h[i]
  }

  /** Some failure window is not followed by a success window. */
  ghost predicate LastWindowFailed(h: seq<bool>, F: int, R: int) {
    exists e :: FailWindow(h, e, F) && forall k :: e < k <= |h| ==> !OkWindow(h, k, R)
  }

  /** Length of the run of probes equal to `v` at the end of the history. */
  function Tail(h: seq<bool>, v: bool): (k: nat)
    ensures k <= |h|
    ensures forall i :: |h| - k <= i < |h| ==> h[i] == v
    ensures k < |h| ==> h[|h| - k - 1] != v
  {
    if h != [] && h[|h| - 1] == v then Tail(h[..|h| - 1], v) + 1 else 0
  }

  /** The automaton computes the verdict of the most recent window, with UP where there was none. */
  lemma {:induction false} HysteresisIsLastWindow(h: seq<bool>, F: int, R: int)
    ensures Run(h, F, R).state.Down? <==> LastWindowFailed(h, F, R)
    ensures Run(h, F, R).state.Up? ==> Run(h, F, R).failures == Tail(h, false) < Effective(F)
    ensures Run(h, F, R).state.Down? ==> Run(h, F, R).successes == Tail(h, true) < Effective(R)
  {
    if h != [] {
      var g := h[..|h| - 1];
      HysteresisIsLastWindow(g, F, R);
      WindowsExtend(h, F, R);
      assert h[|h| - 1] ==> Tail(h, false) == 0;
      assert !h[|h| - 1] ==> Tail(h, true) == 0;
    }
  }

  lemma {:induction false} WindowsExtend(h: seq<bool>, F: int, R: int)
    requires h != []
    ensures LastWindowFailed(h, F, R) <==>
              Tail(h, false) >= Effective(F) || (Tail(h, true) < Effective(R) && LastWindowFailed(h[..|h| - 1], F, R))
  {
    var g := h[..|h| - 1];
    FinalWindow(h, F, R);
    if LastWindowFailed(h, F, R) && !FailWindow(h, |h|, F) {
      var e :| FailWindow(h, e, F) && forall k :: e < k <= |h| ==> !OkWindow(h, k, R);
      EarlierWindow(h, e, F, R);
      assert !OkWindow(h, |h|, R);
      forall k | e < k <= |g| ensures !OkWindow(g, k, R) {
        assert !OkWindow(h, k, R);
        EarlierWindow(h, k, F, R);
      }
    }
    if !OkWindow(h, |h|, R) && LastWindowFailed(g, F, R) {
      var e :| FailWindow(g, e, F) && forall k :: e < k <= |g| ==> !OkWindow(g, k, R);
      EarlierWindow(h, e, F, R);
      forall k | e < k <= |h| ensures !OkWindow(h, k, R) {
        if k < |h| {
          assert !OkWindow(g, k, R);
          EarlierWindow(h, k, F, R);
        }
      }
    }
  }

  lemma EarlierWindow(h: seq<bool>, e: int, F: int, R: int)
    requires h != [] && e < |h|
    ensures FailWindow(h, e, F) <==> FailWindow(h[..|h| - 1], e, F)
    ensures OkWindow(h, e, R) <==> OkWindow(h[..|h| - 1], e, R)
  {
    var g := h[..|h| - 1];
    assert forall i :: 0 <= i < |g| ==> g[i] == h[i];
  }

  lemma {:induction false} FinalWindow(h: seq<bool>, F: int, R: int)
    ensures FailWindow(h, |h|, F) <==> Tail(h, false) >= Effective(F)
    ensures OkWindow(h, |h|, R) <==> Tail(h, true) >= Effective(R)
  {
    TailReaches(h, false, Effective(F));
    TailReaches(h, true, Effective(R));
  }

  lemma {:induction false} TailReaches(h: seq<bool>, v: bool, k: nat)
    ensures Tail(h, v) >= k <==> k <= |h| && forall i :: |h| - k <= i < |h| ==> h[i] == v
  {
    var t := Tail(h, v);
    if t < k <= |h| {
      assert h[|h| - t - 1] != v;
    }
  }

  // ---------------------------------------------------------------- flap bounds

  datatype Stimulus = Probe(ok: bool) | ForceDown

  /** The automaton with a count of the probes, and of the flips probes caused, in each direction. */
  datatype Tally = Tally(link: Link, probes: nat, recoveries: nat, losses: nat)

  function React(t: Tally, s: Stimulus, F: int, R: int): Tally {
    match s
    case ForceDown => t.(link := FORCED)
    case Probe(ok) =>
      var l := Step(t.link, ok, F, R);
      Tally(l, t.probes + 1,
            t.recoveries + (if t.link.state.Down? && l.state.Up? then 1 else 0),
            t.losses + (if t.link.state.Up? && l.state.Down? then 1 else 0))
  }

  function Tallied(ss: seq<Stimulus>, F: int, R: int): Tally {
    if ss == [] then Tally(FRESH, 0, 0, 0) else React(Tallied(ss[..|ss| - 1], F, R), ss[|ss| - 1], F, R)
  }

  /** Recoveries are at least R probes apart, even with forced downs inserted anywhere. */
  lemma {:induction false} RecoveryBound(ss: seq<Stimulus>, F: int, R: int)
    ensures var t := Tallied(ss, F, R);
            t.recoveries * Effective(R) + (if t.link.state.Down? then t.link.successes else 0) <= t.probes
  {
    if ss != [] {
      RecoveryBound(ss[..|ss| - 1], F, R);
      var r := Tallied(ss[..|ss| - 1], F, R).recoveries;
      assert (r + 1) * Effective(R) == r * Effective(R) + Effective(R);
    }
  }

  /** Without forced downs the flips alternate, and t of them need (t/2)(F+R) + (t%2)F probes. */
  lemma {:induction false} FlapBound(ss: seq<Stimulus>, F: int, R: int)
    requires forall i :: 0 <= i < |ss| ==> ss[i].Probe?
    ensures var o := Tallied(ss, F, R); var t := o.recoveries + o.losses;
            o.probes == |ss| && (t / 2) * (Effective(F) + Effective(R)) + (t % 2) * Effective(F) <= |ss|
  {
    FlapPotential(ss, F, R);
    var o := Tallied(ss, F, R);
    assert (o.recoveries + o.losses) / 2 == o.recoveries;
  }

  lemma {:induction false} FlapPotential(ss: seq<Stimulus>, F: int, R: int)
    requires forall i :: 0 <= i < |ss| ==> ss[i].Probe?
    ensures var o := Tallied(ss, F, R);
            && o.probes == |ss|
            && o.losses == o.recoveries + (if o.link.state.Down? then 1 else 0)
            && o.recoveries * (Effective(F) + Effective(R))
               + (if o.link.state.Down? then Effective(F) + o.link.successes else o.link.failures) <= |ss|
  {
    if ss != [] {
      FlapPotential(ss[..|ss| - 1], F, R);
      var r, C := Tallied(ss[..|ss| - 1], F, R).recoveries, Effective(F) + Effective(R);
      assert (r + 1) * C == r * C + C;
    }
  }
}
