/** The history of a run as far as links and events go, and what can be read off it. */
module Trace {
  import opened Wrappers
  import opened StateMachine
  import opened Routing

  datatype Event =
    | DaemonStart
    | Reloaded
    | DaemonStop
    | Wan(name: string, family: Family, state: LinkState)
    | PrimaryChange(fam: Family, from: Option<string>, to: Option<string>, fromIface: Option<string>, toIface: Option<string>)

  /** Init marks a reset of all link states; PdSeen a delegation that a reconcile pass read. */
  datatype Entry =
    | Init(recoveryThreshold: int)
    | Probed(name: string, family: Family, ok: bool)
    | Fired(event: Event)
    | PdSeen(name: string, prefix: Prefix)

  type History = seq<Entry>

  // ---------------------------------------------------------------- readings; all start afresh at Init

  function NextWan(last: LinkState, e: Entry, name: string, f: Family): LinkState {
    match e
    case Init(_) => Up
    case Fired(Wan(n, g, s)) => if n == name && g == f then s else last
    case _ => last
  }

  /** The state the last wan event reported for a link; UP where none was fired. */
  function LastWan(t: History, name: string, f: Family): LinkState {
    if t == [] then Up else NextWan(LastWan(t[..|t| - 1], name, f), t[|t| - 1], name, f)
  }

  function NextRun(run: nat, e: Entry, name: string, f: Family): nat {
    match e
    case Init(_) => 0
    case Probed(n, g, ok) => if n == name && g == f then (if ok then run + 1 else 0) else run
    case Fired(Wan(n, g, s)) => if n == name && g == f && s.Down? then 0 else run
    case _ => run
  }

  /** Successful probes of a link in a row, since the last failure and since it was last reported DOWN. */
  function OkRun(t: History, name: string, f: Family): nat {
    if t == [] then 0 else NextRun(OkRun(t[..|t| - 1], name, f), t[|t| - 1], name, f)
  }

  function NextPd(pd: Option<Prefix>, e: Entry, name: string): Option<Prefix> {
    match e
    case Init(_) => None
    case PdSeen(n, p) => if n == name then Some(p) else pd
    case _ => pd
  }

  /** The delegation of an uplink that a reconcile pass read last. */
  function LastPd(t: History, name: string): Option<Prefix> {
    if t == [] then None else NextPd(LastPd(t[..|t| - 1], name), t[|t| - 1], name)
  }

  function NextThreshold(r: int, e: Entry): int { if e.Init? then e.recoveryThreshold else r }

  /** The recovery threshold in force. */
  function Threshold(t: History): int {
    if t == [] then 0 else NextThreshold(Threshold(t[..|t| - 1]), t[|t| - 1])
  }

  /** Every `wan-up` follows enough successful probes in a row since the link was last reported DOWN. */
  ghost predicate Earned(t: History) {
    forall k :: 0 <= k < |t| ==> EarnedAt(t[..k], t[k])
  }

  predicate EarnedAt(before: History, e: Entry) {
    match e
    case Fired(Wan(name, f, Up)) => OkRun(before, name, f) >= Effective(Threshold(before))
    case _ => true
  }

  /** The events handed to the hook runner, in order. */
  function Events(t: History): seq<Event> {
    if t == [] then []
    else Events(t[..|t| - 1]) + if t[|t| - 1].Fired? then [t[|t| - 1].event] else []
  }

  /** One more entry. */
  lemma {:induction false} Pushed(t: History, e: Entry)
    ensures forall n, f :: LastWan(t + [e], n, f) == NextWan(LastWan(t, n, f), e, n, f)
    ensures forall n, f :: OkRun(t + [e], n, f) == NextRun(OkRun(t, n, f), e, n, f)
    ensures forall n :: LastPd(t + [e], n) == NextPd(LastPd(t, n), e, n)
    ensures Threshold(t + [e]) == NextThreshold(Threshold(t), e)
    ensures Events(t + [e]) == Events(t) + if e.Fired? then [e.event] else []
    ensures Earned(t + [e]) <==> Earned(t) && EarnedAt(t, e)
  {
    var s := t + [e];
    assert s[..|t|] == t && s[|t|] == e;
    forall k | 0 <= k < |t| ensures s[..k] == t[..k] && s[k] == t[k] {
    }
    if Earned(s) {
      forall k | 0 <= k < |t| ensures EarnedAt(t[..k], t[k]) {
        assert EarnedAt(s[..k], s[k]);
      }
      assert EarnedAt(s[..|t|], s[|t|]);
    }
  }

  /** `wan-up` in the plain reading: the last max(1, threshold) probes of the link succeeded, with no `wan-down` between. */
  lemma {:induction false} OkRunMeans(t: History, name: string, f: Family)
    requires OkRun(t, name, f) > 0
    ensures exists from :: 0 <= from <= |t| && CleanSince(t, from, name, f) && Oks(t[from..], name, f) == OkRun(t, name, f)
  {
    var last := |t| - 1;
    var prev := OkRun(t[..last], name, f);
    if prev == 0 {
      assert t[last..] == [t[last]];
      assert Oks(t[last..], name, f) == 1 by { assert t[last..][..0] == []; }
      assert CleanSince(t, last, name, f);
    } else {
      OkRunMeans(t[..last], name, f);
      var from :| 0 <= from <= last && CleanSince(t[..last], from, name, f) && Oks(t[..last][from..], name, f) == prev;
      assert t[from..][..|t[from..]| - 1] == t[..last][from..];
      assert forall k :: from <= k < last ==> t[k] == t[..last][k];
      assert CleanSince(t, from, name, f);
    }
  }

  /** From `from` on, no failure of the link, no report that it is DOWN, and no reset. */
  ghost predicate CleanSince(t: History, from: int, name: string, f: Family) {
    0 <= from <= |t| && forall k :: from <= k < |t| ==>
      !t[k].Init? && t[k] != Probed(name, f, false) && t[k] != Fired(Wan(name, f, Down))
  }

  function Oks(t: History, name: string, f: Family): nat {
    if t == [] then 0 else Oks(t[..|t| - 1], name, f) + if t[|t| - 1] == Probed(name, f, true) then 1 else 0
  }
}
