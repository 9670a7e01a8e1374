/** hooks/dhcpcd-hook: what a lease event does to the state files, and in which order it tells the daemon. */
module HookScript {
  import opened Wrappers
  import opened State
  import opened StateText

  datatype Kind = Ipv4 | Ipv6Ra | Ipv6Pd | Ipv6Na

  /** `<uplink>.<kind>.state` in the state directory. */
  datatype File = File(uplink: string, kind: Kind)

  /** What a run of the hook does to the world: change a state file, look up the daemon's PID, signal it. */
  datatype Op = Put(file: File) | ReadPid | Kill

  datatype Reason =
    | BOUND | RENEW | REBIND | REBOOT
    | EXPIRE | RELEASE | STOP
    | ROUTERADVERT
    | BOUND6 | RENEW6 | REBIND6
    | EXPIRE6 | STOP6
    | RECONFIGURE
    | OTHER

  /** The uplink's environment file. */
  datatype UplinkEnv = UplinkEnv(name: string, wanIface: string, ipv6Pd: bool, iaNa: bool)

  /** What dhcpcd passes; an unset variable is empty. `now` is the output of `date +%s`. */
  datatype Env = Env(
    reason: Reason, interface: string, uplink: Option<UplinkEnv>,
    routers: string, ipAddress: string,
    nd1From: string, nd1Lifetime: string, nd1Prefix: string, nd1Plen: string, nd1Flags: string, nd1Addr: string,
    pdPrefix: string, pdLength: string, pdVltime: string, pdPltime: string, naAddr: string,
    now: string)

  // ---------------------------------------------------------------- what the handlers write

  /** New contents of a file, or its removal. */
  datatype Change = Change(file: File, content: Option<string>)

  type Files = map<File, string>

  /** `${s%% *}`: everything before the first blank. */
  function UpToBlank(s: string): (w: string)
    ensures w <= s && ' ' !in w && (|w| < |s| ==> s[|w|] == ' ')
  {
    if s == "" || s[0] == ' ' then "" else [s[0]] + UpToBlank(s[1..])
  }

  function OrElse(s: string, default: string): string { if s == "" then default else s }

  function Ipv4Changes(e: Env, u: UplinkEnv): seq<Change> {
    if UpToBlank(e.routers) == "" then []
    else [Change(File(u.name, Ipv4), Some(Ipv4Text(UpToBlank(e.routers), e.ipAddress)))]
  }

  predicate WantsIpv6(u: UplinkEnv) { u.ipv6Pd || u.iaNa }

  function RaChanges(e: Env, u: UplinkEnv): seq<Change> {
    if !WantsIpv6(u) || e.nd1From == "" then []
    else [Change(File(u.name, Ipv6Ra), Some(RaText(e.nd1From, OrElse(e.nd1Lifetime, "0"), e.now,
                                                   if 'M' in e.nd1Flags then "" else e.nd1Addr,
                                                   e.nd1Prefix, OrElse(e.nd1Plen, "0"))))]
  }

  function PdChanges(e: Env, u: UplinkEnv): seq<Change> {
    if e.pdPrefix == "" || e.pdLength == "" then []
    else [Change(File(u.name, Ipv6Pd), Some(PdText(e.pdPrefix, e.pdLength, e.pdVltime, e.pdPltime, e.now)))]
  }

  function NaChanges(e: Env, u: UplinkEnv, reconfigure: bool): seq<Change> {
    if e.naAddr != "" then [Change(File(u.name, Ipv6Na), Some(NaText(e.naAddr)))]
    else if !reconfigure then [Change(File(u.name, Ipv6Na), None)]
    else []
  }

  function Bound6Changes(e: Env, u: UplinkEnv, reconfigure: bool): seq<Change> {
    if WantsIpv6(u) then PdChanges(e, u) + NaChanges(e, u, reconfigure) else []
  }

  /** None where the hook leaves without a signal. */
  function Changes(e: Env): Option<seq<Change>> {
    if e.uplink.None? || e.interface != e.uplink.value.wanIface then None
    else
      var u := e.uplink.value;
      match e.reason
      case BOUND | RENEW | REBIND | REBOOT => Some(Ipv4Changes(e, u))
      case EXPIRE | RELEASE | STOP => Some([Change(File(u.name, Ipv4), None)])
      case ROUTERADVERT => Some(RaChanges(e, u))
      case BOUND6 | RENEW6 | REBIND6 => Some(Bound6Changes(e, u, false))
      case EXPIRE6 | STOP6 =>
        if WantsIpv6(u) then
          Some([Change(File(u.name, Ipv6Ra), None), Change(File(u.name, Ipv6Pd), None), Change(File(u.name, Ipv6Na), None)])
        else None
      case RECONFIGURE => Some(Ipv4Changes(e, u) + RaChanges(e, u) + Bound6Changes(e, u, true))
      case OTHER => None
  }

  function Applied(files: Files, cs: seq<Change>): Files {
    if cs == [] then files
    else
      var c, before := cs[|cs| - 1], Applied(files, cs[..|cs| - 1]);
      if c.content.Some? then before[c.file := c.content.value] else before - {c.file}
  }

  function Puts(cs: seq<Change>): seq<Op> { seq(|cs|, i requires 0 <= i < |cs| => Put(cs[i].file)) }

  lemma {:induction false} AppliedConcat(files: Files, a: seq<Change>, b: seq<Change>)
    ensures Applied(files, a + b) == Applied(Applied(files, a), b)
  {
    if b == [] {
      assert a + b == a;
    } else {
      assert (a + b)[..|a + b| - 1] == a + b[..|b| - 1];
      AppliedConcat(files, a, b[..|b| - 1]);
    }
  }

  lemma PutsConcat(a: seq<Change>, b: seq<Change>)
    ensures Puts(a + b) == Puts(a) + Puts(b)
  {
  }

  // ---------------------------------------------------------------- the script

  class Run {
    var files: Files
    ghost var ops: seq<Op>

    ghost predicate After(before: Files, done: seq<Op>, cs: seq<Change>)
      reads this
    {
      files == Applied(before, cs) && ops == done + Puts(cs)
    }

    method WriteStateFile(target: File, content: string)
      modifies this
      ensures After(old(files), old(ops), [Change(target, Some(content))])
    {
      files := files[target := content];
      ops := ops + [Put(target)];
      assert [Change(target, Some(content))][..0] == [];
    }

    method Remove(target: File)
      modifies this
      ensures After(old(files), old(ops), [Change(target, None)])
    {
      files := files - {target};
      ops := ops + [Put(target)];
      assert [Change(target, None)][..0] == [];
    }

    method SignalDaemon()
      modifies this`ops
      ensures ops == old(ops) + [ReadPid, Kill]
    {
      ops := ops + [ReadPid, Kill];
    }

    method HandleIpv4Bound(e: Env, u: UplinkEnv)
      modifies this
      ensures After(old(files), old(ops), Ipv4Changes(e, u))
    {
      hide Ipv4Text;
      var gw4 := UpToBlank(e.routers);
      if gw4 == "" {
        return;
      }
      WriteStateFile(File(u.name, Ipv4), Ipv4Text(gw4, e.ipAddress));
    }

    method HandleRouteadvert(e: Env, u: UplinkEnv)
      modifies this
      ensures After(old(files), old(ops), RaChanges(e, u))
    {
      hide RaText;
      if !u.ipv6Pd && !u.iaNa {
        return;
      }
      var lifetime, plen := OrElse(e.nd1Lifetime, "0"), OrElse(e.nd1Plen, "0");
      if e.nd1From == "" {
        return;
      }
      var slaac := if 'M' in e.nd1Flags then "" else e.nd1Addr;
      WriteStateFile(File(u.name, Ipv6Ra), RaText(e.nd1From, lifetime, e.now, slaac, e.nd1Prefix, plen));
    }

    method HandleIpv6Bound(e: Env, u: UplinkEnv, reconfigure: bool)
      modifies this
      ensures After(old(files), old(ops), Bound6Changes(e, u, reconfigure))
    {
      hide PdText, NaText, Applied, Puts;
      Empty(files);
      if !u.ipv6Pd && !u.iaNa {
        return;
      }
      AppliedConcat(files, PdChanges(e, u), NaChanges(e, u, reconfigure));
      PutsConcat(PdChanges(e, u), NaChanges(e, u, reconfigure));
      if e.pdPrefix != "" && e.pdLength != "" {
        WriteStateFile(File(u.name, Ipv6Pd), PdText(e.pdPrefix, e.pdLength, e.pdVltime, e.pdPltime, e.now));
      }
      Empty(files);
      if e.naAddr != "" {
        WriteStateFile(File(u.name, Ipv6Na), NaText(e.naAddr));
      } else if !reconfigure {
        Remove(File(u.name, Ipv6Na));
      }
    }

    /** Dispatch on the reason: all changes first, then one signal; nothing at all for another interface. */
    method Dispatch(e: Env)
      modifies this
      ensures match Changes(e)
              case Some(cs) => files == Applied(old(files), cs) && ops == old(ops) + Puts(cs) + [ReadPid, Kill]
              case None => files == old(files) && ops == old(ops)
    {
      hide Applied, Puts, Ipv4Changes, RaChanges, Bound6Changes;
      if e.uplink.None? || e.interface != e.uplink.value.wanIface {
        return;
      }
      var u := e.uplink.value;
      match e.reason {
        case BOUND | RENEW | REBIND | REBOOT =>
          HandleIpv4Bound(e, u);
          SignalDaemon();
        case EXPIRE | RELEASE | STOP =>
          Remove(File(u.name, Ipv4));
          SignalDaemon();
        case ROUTERADVERT =>
          HandleRouteadvert(e, u);
          SignalDaemon();
        case BOUND6 | RENEW6 | REBIND6 =>
          HandleIpv6Bound(e, u, false);
          SignalDaemon();
        case EXPIRE6 | STOP6 =>
          if u.ipv6Pd || u.iaNa {
            RemoveAll6(u);
            SignalDaemon();
          }
        case RECONFIGURE =>
          Reconfigure(e, u);
          SignalDaemon();
        case OTHER =>
      }
    }

    method RemoveAll6(u: UplinkEnv)
      modifies this
      ensures After(old(files), old(ops), [Change(File(u.name, Ipv6Ra), None), Change(File(u.name, Ipv6Pd), None),
                                           Change(File(u.name, Ipv6Na), None)])
    {
      hide Applied, Puts;
      var ra, pd, na := Change(File(u.name, Ipv6Ra), None), Change(File(u.name, Ipv6Pd), None), Change(File(u.name, Ipv6Na), None);
      AppliedConcat(files, [ra], [pd]);
      AppliedConcat(files, [ra] + [pd], [na]);
      PutsConcat([ra], [pd]);
      PutsConcat([ra] + [pd], [na]);
      assert [ra] + [pd] + [na] == [ra, pd, na];
      Remove(File(u.name, Ipv6Ra));
      Remove(File(u.name, Ipv6Pd));
      Remove(File(u.name, Ipv6Na));
    }

    method Reconfigure(e: Env, u: UplinkEnv)
      modifies this
      ensures After(old(files), old(ops), Ipv4Changes(e, u) + RaChanges(e, u) + Bound6Changes(e, u, true))
    {
      hide Applied, Puts, Ipv4Changes, RaChanges, Bound6Changes;
      var a, b, c := Ipv4Changes(e, u), RaChanges(e, u), Bound6Changes(e, u, true);
      AppliedConcat(files, a, b);
      AppliedConcat(files, a + b, c);
      PutsConcat(a, b);
      PutsConcat(a + b, c);
      HandleIpv4Bound(e, u);
      HandleRouteadvert(e, u);
      HandleIpv6Bound(e, u, true);
    }
  }

  lemma {:induction false} Empty(files: Files)
    ensures Applied(files, []) == files && Puts([]) == []
  {
  }

  // ---------------------------------------------------------------- order of effects

  /** Write first, signal last. */
  predicate Program(ops: seq<Op>) {
    ops == [] || (|ops| >= 2 && ops[|ops| - 2] == ReadPid && ops[|ops| - 1] == Kill && forall i :: 0 <= i < |ops| - 2 ==> ops[i].Put?)
  }

  function OpsOf(e: Env): seq<Op> {
    match Changes(e)
    case Some(cs) => Puts(cs) + [ReadPid, Kill]
    case None => []
  }

  lemma ChangesAreProgram(cs: seq<Change>)
    ensures Program(Puts(cs) + [ReadPid, Kill]) && Kill in Puts(cs) + [ReadPid, Kill]
    ensures forall op :: op in Puts(cs) + [ReadPid, Kill] && op.Put? ==> exists i :: 0 <= i < |cs| && op.file == cs[i].file
  {
    var ops := Puts(cs) + [ReadPid, Kill];
    assert ops[|cs| + 1] == Kill;
    assert forall i :: 0 <= i < |cs| ==> ops[i] == Put(cs[i].file);
  }

  lemma OwnFilesOnly(e: Env)
    requires Changes(e).Some?
    ensures e.uplink.Some?
    ensures forall i :: 0 <= i < |Changes(e).value| ==> Changes(e).value[i].file.uplink == e.uplink.value.name
  {
    hide Ipv4Text, RaText, PdText, NaText, UpToBlank, OrElse;
  }

  /** Every run of the hook is a program of the wakeup protocol, and touches only its own uplink's files. */
  lemma HookIsProgram(e: Env)
    ensures Program(OpsOf(e))
    ensures forall op :: op in OpsOf(e) && op.Put? ==> e.uplink.Some? && op.file.uplink == e.uplink.value.name
    ensures (exists op :: op in OpsOf(e) && op.Put?) ==> Kill in OpsOf(e)
  {
    hide Changes, Puts;
    if Changes(e).Some? {
      ChangesAreProgram(Changes(e).value);
      OwnFilesOnly(e);
    }
  }

  // ---------------------------------------------------------------- from the hook to the daemon

  /** What the daemon reads of one uplink. */
  function LeasesIn(files: Files, name: string, pdAddress: Option<nat>, now: int): Leases {
    Leases(if File(name, Ipv4) in files then ReadIpv4(files[File(name, Ipv4)]) else None,
           if File(name, Ipv6Ra) in files then ReadRa(files[File(name, Ipv6Ra)]) else None,
           if File(name, Ipv6Pd) in files then ReadPd(files[File(name, Ipv6Pd)]) else None,
           if File(name, Ipv6Na) in files then ReadNa(files[File(name, Ipv6Na)]) else None,
           pdAddress, now)
  }

  /** A file keeps its contents unless a change names it. */
  lemma {:induction false} Untouched(files: Files, cs: seq<Change>, f: File)
    requires forall i :: 0 <= i < |cs| ==> cs[i].file != f
    ensures f in Applied(files, cs) <==> f in files
    ensures f in files ==> Applied(files, cs)[f] == files[f]
  {
    if cs != [] {
      Untouched(files, cs[..|cs| - 1], f);
    }
  }

  lemma {:induction false} LastChange(files: Files, cs: seq<Change>, c: Change)
    ensures if c.content.Some? then c.file in Applied(files, cs + [c]) && Applied(files, cs + [c])[c.file] == c.content.value
            else c.file !in Applied(files, cs + [c])
  {
    assert (cs + [c])[..|cs|] == cs;
  }

  /** An advertisement ends with the daemon reading its values back; an unset lifetime or prefix length is read as 0. */
  lemma {:induction false} AdvertisementReachesDaemon(e: Env, u: UplinkEnv, files: Files, pdAddress: Option<nat>, now: int, r: RaState)
    requires e.uplink == Some(u) && e.interface == u.wanIface && e.reason == ROUTERADVERT && WantsIpv6(u)
    requires e.nd1From == r.gateway != "" && e.nd1Prefix == r.prefix && (if 'M' in e.nd1Flags then "" else e.nd1Addr) == r.address
    requires e.nd1Lifetime == IntText(r.lifetime) || (e.nd1Lifetime == "" && r.lifetime == 0)
    requires e.nd1Plen == IntText(r.plen) || (e.nd1Plen == "" && r.plen == 0)
    requires e.now == IntText(r.timestamp) && Clean(r.gateway) && Clean(r.address) && Clean(r.prefix)
    ensures LeasesIn(Applied(files, Changes(e).value), u.name, pdAddress, now).ra == Some(r)
  {
    hide Clean, ReadRa, RaText, ReadIpv4, ReadNa, ReadPd, IntText, RaChanges, OrElse;
    RaRoundTrip(r);
    SetOrZero(e.nd1Lifetime, r.lifetime);
    SetOrZero(e.nd1Plen, r.plen);
    RaChange(e, u, r);
    var c := RaChanges(e, u)[0];
    assert Changes(e).value == [] + [c];
    LastChange(files, [], c);
  }

  lemma RaChange(e: Env, u: UplinkEnv, r: RaState)
    requires WantsIpv6(u) && e.nd1From == r.gateway != "" && e.nd1Prefix == r.prefix
    requires (if 'M' in e.nd1Flags then "" else e.nd1Addr) == r.address && e.now == IntText(r.timestamp)
    requires OrElse(e.nd1Lifetime, "0") == IntText(r.lifetime) && OrElse(e.nd1Plen, "0") == IntText(r.plen)
    ensures RaChanges(e, u) == [Change(File(u.name, Ipv6Ra), Some(RaText(r.gateway, IntText(r.lifetime), IntText(r.timestamp),
                                                                         r.address, r.prefix, IntText(r.plen))))]
  {
    hide RaText, IntText, OrElse;
  }

  lemma SetOrZero(text: string, n: int)
    requires text == IntText(n) || (text == "" && n == 0)
    ensures OrElse(text, "0") == IntText(n)
  {
    IntTextNonEmpty(n);
    ZeroText();
  }

  lemma ZeroText()
    ensures IntText(0) == "0"
  {
  }

  lemma {:induction false} DelegationReachesDaemon(e: Env, u: UplinkEnv, files: Files, pdAddress: Option<nat>, now: int, r: PdState)
    requires e.uplink == Some(u) && e.interface == u.wanIface && e.reason in {BOUND6, RENEW6, REBIND6} && WantsIpv6(u)
    requires e.pdPrefix == r.prefix != "" && e.pdLength == IntText(r.length) && e.pdVltime == IntText(r.vltime)
    requires e.pdPltime == IntText(r.pltime) && e.now == IntText(r.timestamp) && Clean(r.prefix)
    ensures LeasesIn(Applied(files, Changes(e).value), u.name, pdAddress, now).pd == Some(r)
  {
    hide Clean, ReadPd, PdText, ReadIpv4, ReadNa, ReadRa, NaText, IntText, Applied;
    PdRoundTrip(r);
    IntTextNonEmpty(r.length);
    var c := Change(File(u.name, Ipv6Pd), Some(PdText(e.pdPrefix, e.pdLength, e.pdVltime, e.pdPltime, e.now)));
    var na := NaChanges(e, u, false);
    assert Changes(e).value == [] + [c] + na;
    LastChange(files, [], c);
    AppliedConcat(files, [] + [c], na);
    Untouched(Applied(files, [] + [c]), na, File(u.name, Ipv6Pd));
  }

  lemma IntTextNonEmpty(n: int)
    ensures IntText(n) != ""
  {
  }

  function ChangesOrNone(cs: Option<seq<Change>>): seq<Change> { if cs.Some? then cs.value else [] }

  /** A catch-up run never takes a record away. */
  lemma {:induction false} ReconfigureKeepsFiles(e: Env, files: Files)
    requires e.reason == RECONFIGURE
    ensures files.Keys <= Applied(files, ChangesOrNone(Changes(e))).Keys
  {
    hide Ipv4Text, RaText, PdText, NaText;
    OnlyWrites(files, ChangesOrNone(Changes(e)));
  }

  lemma {:induction false} OnlyWrites(files: Files, cs: seq<Change>)
    requires forall i :: 0 <= i < |cs| ==> cs[i].content.Some?
    ensures files.Keys <= Applied(files, cs).Keys
  {
    if cs != [] {
      OnlyWrites(files, cs[..|cs| - 1]);
    }
  }

  // ---------------------------------------------------------------- every event, every record

  /** The record of one kind becomes what is read of `content`. */
  function WithRecord(l: Leases, kind: Kind, content: Option<string>): Leases {
    match kind
    case Ipv4 => l.(v4 := if content.Some? then ReadIpv4(content.value) else None)
    case Ipv6Ra => l.(ra := if content.Some? then ReadRa(content.value) else None)
    case Ipv6Pd => l.(pd := if content.Some? then ReadPd(content.value) else None)
    case Ipv6Na => l.(na := if content.Some? then ReadNa(content.value) else None)
  }

  lemma {:induction false} OneChange(files: Files, c: Change, pdAddress: Option<nat>, now: int)
    ensures var name := c.file.uplink;
            LeasesIn(Applied(files, [c]), name, pdAddress, now) ==
            WithRecord(LeasesIn(files, name, pdAddress, now), c.file.kind, c.content)
  {
    hide ReadIpv4, ReadRa, ReadPd, ReadNa;
    LastChange(files, [], c);
    assert [] + [c] == [c];
    forall f | f != c.file ensures f in Applied(files, [c]) <==> f in files
      ensures f in files ==> Applied(files, [c])[f] == files[f]
    {
      Untouched(files, [c], f);
    }
  }

  /** What the variables say of a lease: the first router and the address. */
  function LeaseIn(e: Env): Option<Ipv4State> {
    if UpToBlank(e.routers) == "" then None else Some(Ipv4State(UpToBlank(e.routers), e.ipAddress))
  }

  /** The first advertisement; unset numbers are 0, and the address counts only without the managed flag. */
  function AdvertisementIn(e: Env): Option<RaState> {
    var lifetime, plen, timestamp := ParseInt(OrElse(e.nd1Lifetime, "0")), ParseInt(OrElse(e.nd1Plen, "0")), ParseInt(e.now);
    if lifetime.None? || plen.None? || timestamp.None? then None
    else Some(RaState(e.nd1From, lifetime.value, timestamp.value, if 'M' in e.nd1Flags then "" else e.nd1Addr,
                      e.nd1Prefix, plen.value))
  }

  function DelegationIn(e: Env): Option<PdState> {
    var n, v, p, t := ParseInt(e.pdLength), ParseInt(e.pdVltime), ParseInt(e.pdPltime), ParseInt(e.now);
    if n.None? || v.None? || p.None? || t.None? then None else Some(PdState(e.pdPrefix, n.value, v.value, p.value, t.value))
  }

  /** dhcpcd's variables hold no line breaks and no outer blanks. */
  predicate CleanEnv(e: Env) {
    && Clean(UpToBlank(e.routers)) && Clean(e.ipAddress) && Clean(e.nd1From) && Clean(e.nd1Lifetime) && Clean(e.nd1Prefix)
    && Clean(e.nd1Plen) && Clean(e.nd1Addr) && Clean(e.pdPrefix) && Clean(e.pdLength) && Clean(e.pdVltime) && Clean(e.pdPltime)
    && Clean(e.naAddr) && Clean(e.now)
  }

  lemma {:induction false} Ipv4Effect(e: Env, u: UplinkEnv, files: Files, pdAddress: Option<nat>, now: int)
    requires CleanEnv(e)
    ensures var l := LeasesIn(files, u.name, pdAddress, now);
            LeasesIn(Applied(files, Ipv4Changes(e, u)), u.name, pdAddress, now) ==
            if UpToBlank(e.routers) == "" then l else l.(v4 := LeaseIn(e))
  {
    hide Clean, ReadIpv4, Ipv4Text, LeasesIn, Applied;
    Empty(files);
    if UpToBlank(e.routers) != "" {
      Ipv4RoundTrip(LeaseIn(e).value);
      OneChange(files, Ipv4Changes(e, u)[0], pdAddress, now);
    }
  }

  lemma {:induction false} RaEffect(e: Env, u: UplinkEnv, files: Files, pdAddress: Option<nat>, now: int)
    requires CleanEnv(e)
    ensures var l := LeasesIn(files, u.name, pdAddress, now);
            LeasesIn(Applied(files, RaChanges(e, u)), u.name, pdAddress, now) ==
            if (u.ipv6Pd || u.iaNa) && e.nd1From != "" then l.(ra := AdvertisementIn(e)) else l
  {
    hide Clean, ReadRa, RaText, LeasesIn, Applied, ParseInt;
    Empty(files);
    if WantsIpv6(u) && e.nd1From != "" {
      ZeroClean();
      RaReadable(e.nd1From, OrElse(e.nd1Lifetime, "0"), e.now, if 'M' in e.nd1Flags then "" else e.nd1Addr, e.nd1Prefix,
                 OrElse(e.nd1Plen, "0"));
      OneChange(files, RaChanges(e, u)[0], pdAddress, now);
    }
  }

  lemma ZeroClean()
    ensures Clean("0") && Clean("")
  {
  }

  lemma {:induction false} PdEffect(e: Env, u: UplinkEnv, files: Files, pdAddress: Option<nat>, now: int)
    requires CleanEnv(e)
    ensures var l := LeasesIn(files, u.name, pdAddress, now);
            LeasesIn(Applied(files, PdChanges(e, u)), u.name, pdAddress, now) ==
            if e.pdPrefix != "" && e.pdLength != "" then l.(pd := DelegationIn(e)) else l
  {
    hide Clean, ReadPd, PdText, LeasesIn, Applied, ParseInt;
    Empty(files);
    if e.pdPrefix != "" && e.pdLength != "" {
      PdReadable(e.pdPrefix, e.pdLength, e.pdVltime, e.pdPltime, e.now);
      OneChange(files, PdChanges(e, u)[0], pdAddress, now);
    }
  }

  lemma {:induction false} NaEffect(e: Env, u: UplinkEnv, reconfigure: bool, files: Files, pdAddress: Option<nat>, now: int)
    requires CleanEnv(e)
    ensures var l := LeasesIn(files, u.name, pdAddress, now);
            LeasesIn(Applied(files, NaChanges(e, u, reconfigure)), u.name, pdAddress, now) ==
            if e.naAddr != "" then l.(na := Some(NaState(e.naAddr))) else if reconfigure then l else l.(na := None)
  {
    hide Clean, ReadNa, NaText, LeasesIn, Applied;
    Empty(files);
    if e.naAddr != "" {
      NaRoundTrip(NaState(e.naAddr));
    }
    if NaChanges(e, u, reconfigure) != [] {
      OneChange(files, NaChanges(e, u, reconfigure)[0], pdAddress, now);
    }
  }

  lemma {:induction false} Bound6Effect(e: Env, u: UplinkEnv, reconfigure: bool, files: Files, pdAddress: Option<nat>, now: int)
    requires CleanEnv(e)
    ensures var l := LeasesIn(files, u.name, pdAddress, now);
            LeasesIn(Applied(files, Bound6Changes(e, u, reconfigure)), u.name, pdAddress, now) ==
            if !(u.ipv6Pd || u.iaNa) then l
            else l.(pd := if e.pdPrefix != "" && e.pdLength != "" then DelegationIn(e) else l.pd,
                    na := if e.naAddr != "" then Some(NaState(e.naAddr)) else if reconfigure then l.na else None)
  {
    hide CleanEnv, PdChanges, NaChanges, LeasesIn, Applied, DelegationIn;
    Empty(files);
    PdEffect(e, u, files, pdAddress, now);
    NaEffect(e, u, reconfigure, Applied(files, PdChanges(e, u)), pdAddress, now);
    AppliedConcat(files, PdChanges(e, u), NaChanges(e, u, reconfigure));
  }

  /** An IPv4 lease event with a router: exactly the lease arrives; without one nothing changes. */
  lemma {:induction false} LeaseReachesDaemon(e: Env, u: UplinkEnv, files: Files, pdAddress: Option<nat>, now: int)
    requires e.uplink == Some(u) && e.interface == u.wanIface && e.reason in {BOUND, RENEW, REBIND, REBOOT} && CleanEnv(e)
    ensures Changes(e).Some?
    ensures var l, l' := LeasesIn(files, u.name, pdAddress, now), LeasesIn(Applied(files, Changes(e).value), u.name, pdAddress, now);
            l' == if UpToBlank(e.routers) == "" then l else l.(v4 := Some(Ipv4State(UpToBlank(e.routers), e.ipAddress)))
  {
    hide CleanEnv, LeasesIn, Applied, Ipv4Changes;
    Ipv4Effect(e, u, files, pdAddress, now);
  }

  /** An expiry takes away the records of its family and no others; IPv6 expiries do so where IPv6 is wanted. */
  lemma {:induction false} ExpiryReachesDaemon(e: Env, u: UplinkEnv, files: Files, pdAddress: Option<nat>, now: int)
    requires e.uplink == Some(u) && e.interface == u.wanIface && e.reason in {EXPIRE, RELEASE, STOP, EXPIRE6, STOP6}
    ensures var l := LeasesIn(files, u.name, pdAddress, now);
            LeasesIn(Applied(files, ChangesOrNone(Changes(e))), u.name, pdAddress, now) ==
            if e.reason in {EXPIRE, RELEASE, STOP} then l.(v4 := None)
            else if u.ipv6Pd || u.iaNa then l.(ra := None, pd := None, na := None)
            else l
  {
    hide LeasesIn, Applied;
    var ra, pd, na := Change(File(u.name, Ipv6Ra), None), Change(File(u.name, Ipv6Pd), None), Change(File(u.name, Ipv6Na), None);
    Empty(files);
    OneChange(files, Change(File(u.name, Ipv4), None), pdAddress, now);
    OneChange(files, ra, pdAddress, now);
    OneChange(Applied(files, [ra]), pd, pdAddress, now);
    OneChange(Applied(files, [ra] + [pd]), na, pdAddress, now);
    AppliedConcat(files, [ra], [pd]);
    AppliedConcat(files, [ra] + [pd], [na]);
    assert [ra] + [pd] + [na] == [ra, pd, na];
  }

  /** The daemon is signalled for every event of the WAN interface but those the hook does not know, and but the end of an
      IPv6 lease that was not wanted. */
  lemma SignalsIff(e: Env)
    ensures Kill in OpsOf(e) <==>
            && e.uplink.Some? && e.interface == e.uplink.value.wanIface && e.reason != OTHER
            && (e.reason in {EXPIRE6, STOP6} ==> e.uplink.value.ipv6Pd || e.uplink.value.iaNa)
  {
    hide Puts, Ipv4Changes, RaChanges, Bound6Changes;
    if Changes(e).Some? {
      ChangesAreProgram(Changes(e).value);
    }
  }

  /** A lease of IPv6: the delegation and the managed address arrive; an absent address is a lost one, an absent
      delegation leaves the record. */
  lemma {:induction false} Bound6ReachesDaemon(e: Env, u: UplinkEnv, files: Files, pdAddress: Option<nat>, now: int)
    requires e.uplink == Some(u) && e.interface == u.wanIface && e.reason in {BOUND6, RENEW6, REBIND6} && CleanEnv(e)
    requires u.ipv6Pd || u.iaNa
    ensures Changes(e).Some?
    ensures var l, l' := LeasesIn(files, u.name, pdAddress, now), LeasesIn(Applied(files, Changes(e).value), u.name, pdAddress, now);
            && l'.na == (if e.naAddr != "" then Some(NaState(e.naAddr)) else None)
            && l'.pd == (if e.pdPrefix != "" && e.pdLength != "" then DelegationIn(e) else l.pd)
            && l'.v4 == l.v4 && l'.ra == l.ra
  {
    hide CleanEnv, LeasesIn, Applied, DelegationIn, Bound6Changes;
    Bound6Effect(e, u, false, files, pdAddress, now);
  }

  /** A catch-up run: each record that the variables describe arrives, each group that is unset leaves its record as it was. */
  lemma {:induction false} ReconfigureReachesDaemon(e: Env, u: UplinkEnv, files: Files, pdAddress: Option<nat>, now: int)
    requires e.uplink == Some(u) && e.interface == u.wanIface && e.reason == RECONFIGURE && CleanEnv(e)
    ensures Changes(e).Some?
    ensures var l, l' := LeasesIn(files, u.name, pdAddress, now), LeasesIn(Applied(files, Changes(e).value), u.name, pdAddress, now);
            var wanted := u.ipv6Pd || u.iaNa;
            && l'.v4 == (if UpToBlank(e.routers) != "" then Some(Ipv4State(UpToBlank(e.routers), e.ipAddress)) else l.v4)
            && l'.ra == (if wanted && e.nd1From != "" then AdvertisementIn(e) else l.ra)
            && l'.pd == (if wanted && e.pdPrefix != "" && e.pdLength != "" then DelegationIn(e) else l.pd)
            && l'.na == (if wanted && e.naAddr != "" then Some(NaState(e.naAddr)) else l.na)
  {
    hide CleanEnv, LeasesIn, Applied, DelegationIn, AdvertisementIn, Ipv4Changes, RaChanges, Bound6Changes;
    var a, b, c := Ipv4Changes(e, u), RaChanges(e, u), Bound6Changes(e, u, true);
    var files1 := Applied(files, a);
    Ipv4Effect(e, u, files, pdAddress, now);
    RaEffect(e, u, files1, pdAddress, now);
    Bound6Effect(e, u, true, Applied(files1, b), pdAddress, now);
    AppliedConcat(files, a, b);
    AppliedConcat(files, a + b, c);
  }
}
