/** state.py: the text of a state file and how it is read back. */
module StateText {
  import opened Wrappers
  import opened Naming
  import opened State

  // ---------------------------------------------------------------- characters, as Python's str sees them

  /** Where `splitlines` breaks. */
  predicate IsBreak(c: char) {
    '\n' <= c <= '\r' || '\U{1C}' <= c <= '\U{1E}' || c == '\U{85}' || c == '\U{2028}' || c == '\U{2029}'
  }

  /** What `strip` removes. */
  predicate IsSpace(c: char) {
    || IsBreak(c) || c == ' ' || c == '\t' || c == '\U{1F}' || c == '\U{A0}' || c == '\U{1680}'
    || '\U{2000}' <= c <= '\U{200A}' || c == '\U{202F}' || c == '\U{205F}' || c == '\U{3000}'
  }

  function FirstBreak(s: string): (k: nat)
    ensures k <= |s| && (k < |s| ==> IsBreak(s[k])) && forall i :: 0 <= i < k ==> !IsBreak(s[i])
  {
    if s == "" || IsBreak(s[0]) then 0 else 1 + FirstBreak(s[1..])
  }

  /** `s.splitlines()`; a carriage return and a line feed together are one break. */
  function SplitLines(s: string): seq<string>
    decreases |s|
  {
    if s == "" then []
    else
      var k := FirstBreak(s);
      if k == |s| then [s]
      else [s[..k]] + SplitLines(s[if s[k] == '\r' && k + 1 < |s| && s[k + 1] == '\n' then k + 2 else k + 1..])
  }

  function StripLeft(s: string): string { if s != "" && IsSpace(s[0]) then StripLeft(s[1..]) else s }

  function StripRight(s: string): string { if s != "" && IsSpace(s[|s| - 1]) then StripRight(s[..|s| - 1]) else s }

  function Strip(s: string): string { StripRight(StripLeft(s)) }

  function FirstEq(s: string): (k: nat)
    ensures k <= |s| && (k < |s| ==> s[k] == '=') && forall i :: 0 <= i < k ==> s[i] != '='
  {
    if s == "" || s[0] == '=' then 0 else 1 + FirstEq(s[1..])
  }

  // ---------------------------------------------------------------- key=value lines

  type Pairs = map<string, string>

  function PutLine(kv: Pairs, raw: string): Pairs {
    var line := Strip(raw);
    var k := FirstEq(line);
    if k < |line| then kv[Strip(line[..k]) := Strip(line[k + 1..])] else kv
  }

  /** After the first `i` lines; a later line overrides an earlier one. */
  function PairsOf(lines: seq<string>, i: nat): Pairs
    requires i <= |lines|
  {
    if i == 0 then map[] else PutLine(PairsOf(lines, i - 1), lines[i - 1])
  }

  function Parsed(text: string): Pairs { PairsOf(SplitLines(text), |SplitLines(text)|) }

  // ---------------------------------------------------------------- int()

  predicate AllDigits(s: string) { forall i :: 0 <= i < |s| ==> IsDigit(s[i]) }

  /** A digit, or an underscore between two digits. */
  predicate GroupChar(s: string, i: nat)
    requires i < |s|
  {
    IsDigit(s[i]) || (s[i] == '_' && 0 < i < |s| - 1 && IsDigit(s[i - 1]) && IsDigit(s[i + 1]))
  }

  predicate DigitGroups(s: string) { |s| > 0 && forall i :: 0 <= i < |s| ==> GroupChar(s, i) }

  function DropUnderscores(s: string): string {
    if s == "" then "" else (if s[0] == '_' then "" else [s[0]]) + DropUnderscores(s[1..])
  }

  lemma {:induction false} UnderscoresGone(s: string)
    requires forall i :: 0 <= i < |s| ==> IsDigit(s[i]) || s[i] == '_'
    ensures AllDigits(DropUnderscores(s))
    ensures AllDigits(s) ==> DropUnderscores(s) == s
  {
    if s != "" {
      UnderscoresGone(s[1..]);
    }
  }

  lemma GroupChars(s: string)
    requires DigitGroups(s)
    ensures forall i :: 0 <= i < |s| ==> IsDigit(s[i]) || s[i] == '_'
  {
    forall i | 0 <= i < |s| ensures IsDigit(s[i]) || s[i] == '_' {
      assert GroupChar(s, i);
    }
  }

  /** Python's `int(s)` on ASCII text; None where it raises ValueError. */
  function ParseInt(s: string): Option<int> {
    var t := Strip(s);
    var negative := t != "" && t[0] == '-';
    var body := if t != "" && t[0] in "+-" then t[1..] else t;
    if DigitGroups(body) then
      GroupChars(body);
      UnderscoresGone(body);
      var n: int := Undec(DropUnderscores(body));
      Some(if negative then -n else n)
    else None
  }

  // ---------------------------------------------------------------- records

  datatype Value = Str(s: string) | Int(n: int)

  /** One entry of `field_types` with its entry of `defaults`, if any. */
  datatype Field = Field(key: string, isInt: bool, default: Option<Value>)

  function FieldValue(f: Field, kv: Pairs): Option<Value> {
    if f.key in kv then
      if !f.isInt then Some(Str(kv[f.key]))
      else match ParseInt(kv[f.key])
        case Some(n) => Some(Int(n))
        case None => None
    else f.default
  }

  /** None iff some field has no value: missing without a default, or not an integer. */
  function Values(fields: seq<Field>, kv: Pairs): (r: Option<seq<Value>>)
    ensures r.Some? <==> forall i :: 0 <= i < |fields| ==> FieldValue(fields[i], kv).Some?
    ensures r.Some? ==> |r.value| == |fields| && forall i :: 0 <= i < |fields| ==> Some(r.value[i]) == FieldValue(fields[i], kv)
  {
    if fields == [] then Some([])
    else
      var last := FieldValue(fields[|fields| - 1], kv);
      match Values(fields[..|fields| - 1], kv)
      case Some(vs) => if last.Some? then Some(vs + [last.value]) else None
      case None => None
  }

  /** `_read_kv_state`: the loop over the lines and the loop over the fields; a missing file is None. */
  method ReadKvState(text: Option<string>, fields: seq<Field>) returns (r: Option<seq<Value>>)
    ensures r == if text.Some? then Values(fields, Parsed(text.value)) else None
  {
    if text.None? {
      return None;
    }
    var kv: Pairs := map[];
    var lines := SplitLines(text.value);
    for i := 0 to |lines|
      invariant kv == PairsOf(lines, i)
    {
      var line := Strip(lines[i]);
      var k := FirstEq(line);
      if k < |line| {
        kv := kv[Strip(line[..k]) := Strip(line[k + 1..])];
      }
    }
    var kwargs: seq<Value> := [];
    for i := 0 to |fields|
      invariant Values(fields[..i], kv) == Some(kwargs)
    {
      var f := fields[i];
      var value: Value;
      if f.key in kv {
        if f.isInt {
          var n := ParseInt(kv[f.key]);
          if n.None? {
            assert FieldValue(f, kv).None?;
            return None;
          }
          value := Int(n.value);
        } else {
          value := Str(kv[f.key]);
        }
      } else if f.default.Some? {
        value := f.default.value;
      } else {
        assert FieldValue(f, kv).None?;
        return None;
      }
      assert fields[..i + 1][..i] == fields[..i];
      kwargs := kwargs + [value];
    }
    assert fields[..|fields|] == fields;
    r := Some(kwargs);
  }

  // ---------------------------------------------------------------- the four readers

  const FIELDS_IPV4 := [Field("gateway", false, None), Field("address", false, None)]

  const FIELDS_RA := [
    Field("gateway", false, None), Field("lifetime", true, None), Field("timestamp", true, None),
    Field("address", false, Some(Str(""))), Field("prefix", false, Some(Str(""))), Field("plen", true, Some(Int(0)))]

  const FIELDS_NA := [Field("address", false, None)]

  const FIELDS_PD := [
    Field("delegated_prefix", false, None), Field("delegated_length", true, None), Field("vltime", true, None),
    Field("pltime", true, None), Field("timestamp", true, None)]

  function TextAt(kv: Pairs, key: string): Option<string> { if key in kv then Some(kv[key]) else None }

  function IntAt(kv: Pairs, key: string): Option<int> { if key in kv then ParseInt(kv[key]) else None }

  function ReadIpv4(text: string): Option<Ipv4State> {
    var kv := Parsed(text);
    var gateway, address := TextAt(kv, "gateway"), TextAt(kv, "address");
    if gateway.Some? && address.Some? then Some(Ipv4State(gateway.value, address.value)) else None
  }

  function ReadRa(text: string): Option<RaState> {
    var kv := Parsed(text);
    var gateway, lifetime, timestamp := TextAt(kv, "gateway"), IntAt(kv, "lifetime"), IntAt(kv, "timestamp");
    var plen := if "plen" in kv then ParseInt(kv["plen"]) else Some(0);
    if gateway.Some? && lifetime.Some? && timestamp.Some? && plen.Some? then
      Some(RaState(gateway.value, lifetime.value, timestamp.value, GetOr(kv, "address", ""), GetOr(kv, "prefix", ""), plen.value))
    else None
  }

  function ReadNa(text: string): Option<NaState> {
    var kv := Parsed(text);
    if "address" in kv then Some(NaState(kv["address"])) else None
  }

  function ReadPd(text: string): Option<PdState> {
    var kv := Parsed(text);
    var prefix, length := TextAt(kv, "delegated_prefix"), IntAt(kv, "delegated_length");
    var vltime, pltime, timestamp := IntAt(kv, "vltime"), IntAt(kv, "pltime"), IntAt(kv, "timestamp");
    if prefix.Some? && length.Some? && vltime.Some? && pltime.Some? && timestamp.Some? then
      Some(PdState(prefix.value, length.value, vltime.value, pltime.value, timestamp.value))
    else None
  }

  method ReadIpv4State(text: Option<string>) returns (r: Option<Ipv4State>)
    ensures r == if text.Some? then ReadIpv4(text.value) else None
  {
    hide ParseInt, SplitLines, Strip;
    var vs := ReadKvState(text, FIELDS_IPV4);
    r := if vs.Some? then Some(Ipv4State(vs.value[0].s, vs.value[1].s)) else None;
  }

  method ReadRaState(text: Option<string>) returns (r: Option<RaState>)
    ensures r == if text.Some? then ReadRa(text.value) else None
  {
    hide ParseInt, SplitLines, Strip;
    var vs := ReadKvState(text, FIELDS_RA);
    r := if vs.Some? then Some(RaState(vs.value[0].s, vs.value[1].n, vs.value[2].n, vs.value[3].s, vs.value[4].s, vs.value[5].n))
         else None;
  }

  method ReadNaState(text: Option<string>) returns (r: Option<NaState>)
    ensures r == if text.Some? then ReadNa(text.value) else None
  {
    hide ParseInt, SplitLines, Strip;
    var vs := ReadKvState(text, FIELDS_NA);
    r := if vs.Some? then Some(NaState(vs.value[0].s)) else None;
  }

  method ReadPdState(text: Option<string>) returns (r: Option<PdState>)
    ensures r == if text.Some? then ReadPd(text.value) else None
  {
    hide ParseInt, SplitLines, Strip;
    var vs := ReadKvState(text, FIELDS_PD);
    r := if vs.Some? then Some(PdState(vs.value[0].s, vs.value[1].n, vs.value[2].n, vs.value[3].n, vs.value[4].n)) else None;
  }

  // ---------------------------------------------------------------- what the hook's printf writes

  /** `printf 'k1=%s\nk2=%s\n' v1 v2`. */
  function Printf(pairs: seq<(string, string)>): string {
    if pairs == [] then "" else pairs[0].0 + "=" + pairs[0].1 + "\n" + Printf(pairs[1..])
  }

  function PutAll(pairs: seq<(string, string)>, i: nat): Pairs
    requires i <= |pairs|
  {
    if i == 0 then map[] else PutAll(pairs, i - 1)[pairs[i - 1].0 := pairs[i - 1].1]
  }

  /** No line breaks, no outer blanks. */
  predicate Clean(v: string) {
    (forall i :: 0 <= i < |v| ==> !IsBreak(v[i])) && (v != "" ==> !IsSpace(v[0]) && !IsSpace(v[|v| - 1]))
  }

  predicate KeyOk(k: string) { Clean(k) && k != "" && '=' !in k }

  predicate PairsOk(pairs: seq<(string, string)>) {
    forall i :: 0 <= i < |pairs| ==> KeyOk(pairs[i].0) && Clean(pairs[i].1)
  }

  function Line(p: (string, string)): string { p.0 + "=" + p.1 }

  function Lines(pairs: seq<(string, string)>): seq<string> { seq(|pairs|, i requires 0 <= i < |pairs| => Line(pairs[i])) }

  lemma {:induction false} BreakAfter(line: string, rest: string)
    requires forall i :: 0 <= i < |line| ==> !IsBreak(line[i])
    ensures FirstBreak(line + "\n" + rest) == |line|
  {
    var s := line + "\n" + rest;
    if line != "" {
      BreakAfter(line[1..], rest);
      assert s[1..] == line[1..] + "\n" + rest;
      assert s[0] == line[0];
    }
  }

  lemma {:induction false} FirstLine(line: string, rest: string)
    requires forall i :: 0 <= i < |line| ==> !IsBreak(line[i])
    ensures SplitLines(line + "\n" + rest) == [line] + SplitLines(rest)
  {
    hide IsBreak;
    var s := line + "\n" + rest;
    BreakAfter(line, rest);
    assert s[..|line|] == line && s[|line| + 1..] == rest && s[|line|] == '\n';
  }

  lemma {:induction false} LinesOfPrintf(pairs: seq<(string, string)>)
    requires PairsOk(pairs)
    ensures SplitLines(Printf(pairs)) == Lines(pairs)
  {
    hide IsBreak, IsSpace, Lines, Line, KeyOk, Clean;
    LinesStep(pairs);
    if pairs != [] {
      hide SplitLines, Printf;
      var line, rest := Line(pairs[0]), Printf(pairs[1..]);
      BreakIsNoEq(pairs[0]);
      FirstLine(line, rest);
      LinesOfPrintf(pairs[1..]);
    }
  }

  lemma {:induction false} LinesStep(pairs: seq<(string, string)>)
    ensures if pairs == [] then Lines(pairs) == [] && Printf(pairs) == ""
            else Lines(pairs) == [Line(pairs[0])] + Lines(pairs[1..]) && Printf(pairs) == Line(pairs[0]) + "\n" + Printf(pairs[1..])
  {
  }

  lemma BreakIsNoEq(p: (string, string))
    requires KeyOk(p.0) && Clean(p.1)
    ensures forall i :: 0 <= i < |Line(p)| ==> !IsBreak(Line(p)[i])
  {
  }

  lemma {:induction false} EqAfter(k: string, v: string)
    requires '=' !in k
    ensures FirstEq(k + "=" + v) == |k|
  {
    var s := k + "=" + v;
    if k != "" {
      EqAfter(k[1..], v);
      assert s[1..] == k[1..] + "=" + v;
      assert s[0] == k[0];
    }
  }

  lemma PutLineOfPair(kv: Pairs, p: (string, string))
    requires KeyOk(p.0) && Clean(p.1)
    ensures PutLine(kv, Line(p)) == kv[p.0 := p.1]
  {
    var s := Line(p);
    EqAfter(p.0, p.1);
    assert s[0] == p.0[0] && s[|s| - 1] == if p.1 == "" then '=' else p.1[|p.1| - 1];
    assert Strip(s) == s && Strip(p.0) == p.0 && Strip(p.1) == p.1;
    assert s[..|p.0|] == p.0 && s[|p.0| + 1..] == p.1;
  }

  lemma {:induction false} PairsOfLines(pairs: seq<(string, string)>, i: nat)
    requires i <= |pairs| && PairsOk(pairs)
    ensures PairsOf(Lines(pairs), i) == PutAll(pairs, i)
  {
    hide PutLine;
    if i > 0 {
      PairsOfLines(pairs, i - 1);
      PutLineOfPair(PutAll(pairs, i - 1), pairs[i - 1]);
    }
  }

  /** Reading back what printf wrote yields the pairs. */
  lemma {:induction false} PrintfParsed(pairs: seq<(string, string)>)
    requires PairsOk(pairs)
    ensures Parsed(Printf(pairs)) == PutAll(pairs, |pairs|)
  {
    LinesOfPrintf(pairs);
    PairsOfLines(pairs, |pairs|);
  }

  // ---------------------------------------------------------------- integers

  function IntText(n: int): string { if n < 0 then "-" + Dec(-n) else Dec(n) }

  lemma Unstripped(s: string)
    requires s != "" ==> !IsSpace(s[0]) && !IsSpace(s[|s| - 1])
    ensures Strip(s) == s
  {
  }

  lemma IntRoundTrip(n: int)
    ensures ParseInt(IntText(n)) == Some(n) && Clean(IntText(n))
  {
    hide Strip, Dec, Undec, DropUnderscores;
    var m: nat := if n < 0 then -n else n;
    var s, d := IntText(n), Dec(m);
    Unstripped(s);
    assert n < 0 ==> s[1..] == d;
    assert forall i :: 0 <= i < |d| ==> GroupChar(d, i);
    UnderscoresGone(d);
    UndecDec(m);
  }

  // ---------------------------------------------------------------- the four kinds

  function Ipv4Text(gateway: string, address: string): string {
    Printf([("gateway", gateway), ("address", address)])
  }

  function RaText(gateway: string, lifetime: string, timestamp: string, address: string, prefix: string, plen: string): string {
    Printf([("gateway", gateway), ("lifetime", lifetime), ("timestamp", timestamp), ("address", address),
            ("prefix", prefix), ("plen", plen)])
  }

  function PdText(prefix: string, length: string, vltime: string, pltime: string, timestamp: string): string {
    Printf([("delegated_prefix", prefix), ("delegated_length", length), ("vltime", vltime), ("pltime", pltime),
            ("timestamp", timestamp)])
  }

  function NaText(address: string): string { Printf([("address", address)]) }

  lemma Ipv4RoundTrip(r: Ipv4State)
    requires Clean(r.gateway) && Clean(r.address)
    ensures ReadIpv4(Ipv4Text(r.gateway, r.address)) == Some(r)
  {
    hide IsBreak, IsSpace, SplitLines;
    KeysOk();
    var pairs := [("gateway", r.gateway), ("address", r.address)];
    PrintfParsed(pairs);
    assert PutAll(pairs, 1) == map["gateway" := r.gateway];
    assert PutAll(pairs, 2) == map["gateway" := r.gateway, "address" := r.address];
  }

  lemma NaRoundTrip(r: NaState)
    requires Clean(r.address)
    ensures ReadNa(NaText(r.address)) == Some(r)
  {
    hide IsBreak, IsSpace, SplitLines;
    KeysOk();
    var pairs := [("address", r.address)];
    PrintfParsed(pairs);
    assert PutAll(pairs, 1) == map["address" := r.address];
  }

  function RaPairs(gateway: string, lifetime: string, timestamp: string, address: string, prefix: string, plen: string)
    : seq<(string, string)>
  {
    [("gateway", gateway), ("lifetime", lifetime), ("timestamp", timestamp), ("address", address), ("prefix", prefix), ("plen", plen)]
  }

  lemma RaLookups(gateway: string, lifetime: string, timestamp: string, address: string, prefix: string, plen: string)
    ensures PutAll(RaPairs(gateway, lifetime, timestamp, address, prefix, plen), 6) ==
            map["gateway" := gateway, "lifetime" := lifetime, "timestamp" := timestamp, "address" := address,
                "prefix" := prefix, "plen" := plen]
  {
    var pairs := RaPairs(gateway, lifetime, timestamp, address, prefix, plen);
    assert PutAll(pairs, 6) == PutAll(pairs, 4)["prefix" := prefix]["plen" := plen];
    assert PutAll(pairs, 4) == PutAll(pairs, 2)["timestamp" := timestamp]["address" := address];
    assert PutAll(pairs, 2) == PutAll(pairs, 1)["lifetime" := lifetime];
    assert PutAll(pairs, 1) == map["gateway" := gateway];
  }

  /** Whatever clean text the hook was given: the record is read iff its three numbers are integers, and as given. */
  lemma RaReadable(gateway: string, lifetime: string, timestamp: string, address: string, prefix: string, plen: string)
    requires Clean(gateway) && Clean(lifetime) && Clean(timestamp) && Clean(address) && Clean(prefix) && Clean(plen)
    ensures var l, t, p := ParseInt(lifetime), ParseInt(timestamp), ParseInt(plen);
            ReadRa(RaText(gateway, lifetime, timestamp, address, prefix, plen)) ==
            if l.Some? && t.Some? && p.Some? then Some(RaState(gateway, l.value, t.value, address, prefix, p.value)) else None
  {
    hide IsBreak, IsSpace, Parsed, ParseInt, PutAll, KeyOk, Clean, Printf;
    KeysOk();
    PrintfParsed(RaPairs(gateway, lifetime, timestamp, address, prefix, plen));
    RaLookups(gateway, lifetime, timestamp, address, prefix, plen);
  }

  lemma RaRoundTrip(r: RaState)
    requires Clean(r.gateway) && Clean(r.address) && Clean(r.prefix)
    ensures ReadRa(RaText(r.gateway, IntText(r.lifetime), IntText(r.timestamp), r.address, r.prefix, IntText(r.plen))) == Some(r)
  {
    hide IsBreak, IsSpace, ParseInt, IntText, Clean, RaText;
    IntRoundTrip(r.lifetime);
    IntRoundTrip(r.timestamp);
    IntRoundTrip(r.plen);
    RaReadable(r.gateway, IntText(r.lifetime), IntText(r.timestamp), r.address, r.prefix, IntText(r.plen));
  }

  function PdPairs(prefix: string, length: string, vltime: string, pltime: string, timestamp: string): seq<(string, string)> {
    [("delegated_prefix", prefix), ("delegated_length", length), ("vltime", vltime), ("pltime", pltime), ("timestamp", timestamp)]
  }

  lemma PdLookups(prefix: string, length: string, vltime: string, pltime: string, timestamp: string)
    ensures PutAll(PdPairs(prefix, length, vltime, pltime, timestamp), 5) ==
            map["delegated_prefix" := prefix, "delegated_length" := length, "vltime" := vltime, "pltime" := pltime,
                "timestamp" := timestamp]
  {
    var pairs := PdPairs(prefix, length, vltime, pltime, timestamp);
    assert PutAll(pairs, 5) == PutAll(pairs, 3)["pltime" := pltime]["timestamp" := timestamp];
    assert PutAll(pairs, 3) == PutAll(pairs, 1)["delegated_length" := length]["vltime" := vltime];
    assert PutAll(pairs, 1) == map["delegated_prefix" := prefix];
  }

  /** Likewise a delegation, with its four numbers. */
  lemma PdReadable(prefix: string, length: string, vltime: string, pltime: string, timestamp: string)
    requires Clean(prefix) && Clean(length) && Clean(vltime) && Clean(pltime) && Clean(timestamp)
    ensures var n, v, p, t := ParseInt(length), ParseInt(vltime), ParseInt(pltime), ParseInt(timestamp);
            ReadPd(PdText(prefix, length, vltime, pltime, timestamp)) ==
            if n.Some? && v.Some? && p.Some? && t.Some? then Some(PdState(prefix, n.value, v.value, p.value, t.value)) else None
  {
    hide IsBreak, IsSpace, Parsed, ParseInt, PutAll, KeyOk, Clean, Printf;
    KeysOk();
    PrintfParsed(PdPairs(prefix, length, vltime, pltime, timestamp));
    PdLookups(prefix, length, vltime, pltime, timestamp);
  }

  lemma PdRoundTrip(r: PdState)
    requires Clean(r.prefix)
    ensures ReadPd(PdText(r.prefix, IntText(r.length), IntText(r.vltime), IntText(r.pltime), IntText(r.timestamp))) == Some(r)
  {
    hide IsBreak, IsSpace, ParseInt, IntText, Clean, PdText;
    IntRoundTrip(r.length);
    IntRoundTrip(r.vltime);
    IntRoundTrip(r.pltime);
    IntRoundTrip(r.timestamp);
    PdReadable(r.prefix, IntText(r.length), IntText(r.vltime), IntText(r.pltime), IntText(r.timestamp));
  }

  function FileLine(key: string, value: string): string { key + "=" + value + "\n" }

  lemma {:induction false} PrintfStep(key: string, value: string, rest: seq<(string, string)>, pairs: seq<(string, string)>)
    requires |pairs| == 1 + |rest| && pairs[0] == (key, value) && forall i :: 0 <= i < |rest| ==> pairs[i + 1] == rest[i]
    ensures Printf(pairs) == FileLine(key, value) + Printf(rest)
    ensures rest == [] ==> Printf(pairs) == FileLine(key, value)
  {
    assert pairs[1..] == rest;
  }

  /** The files, line by line. */
  lemma Formats(a: string, b: string, c: string, d: string, e: string, f: string)
    ensures Ipv4Text(a, b) == FileLine("gateway", a) + FileLine("address", b)
    ensures NaText(a) == FileLine("address", a)
    ensures PdText(a, b, c, d, e) == FileLine("delegated_prefix", a) + (FileLine("delegated_length", b) + (FileLine("vltime", c)
                                     + (FileLine("pltime", d) + FileLine("timestamp", e))))
    ensures RaText(a, b, c, d, e, f) == FileLine("gateway", a) + (FileLine("lifetime", b) + (FileLine("timestamp", c)
                                        + (FileLine("address", d) + (FileLine("prefix", e) + FileLine("plen", f)))))
  {
    hide Ipv4Text, NaText, PdText, RaText;
    Ipv4Format(a, b);
    PdFormat(a, b, c, d, e);
    RaFormat(a, b, c, d, e, f);
  }

  lemma Ipv4Format(a: string, b: string)
    ensures Ipv4Text(a, b) == FileLine("gateway", a) + FileLine("address", b)
    ensures NaText(a) == FileLine("address", a)
  {
    hide Printf, FileLine;
    PrintfStep("address", b, [], [("address", b)]);
    PrintfStep("gateway", a, [("address", b)], [("gateway", a), ("address", b)]);
    PrintfStep("address", a, [], [("address", a)]);
  }

  lemma PdFormat(a: string, b: string, c: string, d: string, e: string)
    ensures PdText(a, b, c, d, e) == FileLine("delegated_prefix", a) + (FileLine("delegated_length", b) + (FileLine("vltime", c)
                                     + (FileLine("pltime", d) + FileLine("timestamp", e))))
  {
    hide Printf, FileLine;
    PrintfStep("timestamp", e, [], [("timestamp", e)]);
    PrintfStep("pltime", d, [("timestamp", e)], [("pltime", d), ("timestamp", e)]);
    PrintfStep("vltime", c, [("pltime", d), ("timestamp", e)],
               [("vltime", c), ("pltime", d), ("timestamp", e)]);
    PrintfStep("delegated_length", b, [("vltime", c), ("pltime", d), ("timestamp", e)],
               [("delegated_length", b), ("vltime", c), ("pltime", d), ("timestamp", e)]);
    PrintfStep("delegated_prefix", a, [("delegated_length", b), ("vltime", c), ("pltime", d), ("timestamp", e)],
               [("delegated_prefix", a), ("delegated_length", b), ("vltime", c), ("pltime", d), ("timestamp", e)]);
  }

  lemma RaFormat(a: string, b: string, c: string, d: string, e: string, f: string)
    ensures RaText(a, b, c, d, e, f) == FileLine("gateway", a) + (FileLine("lifetime", b) + (FileLine("timestamp", c)
                                        + (FileLine("address", d) + (FileLine("prefix", e) + FileLine("plen", f)))))
  {
    hide Printf, FileLine;
    PrintfStep("plen", f, [], [("plen", f)]);
    PrintfStep("prefix", e, [("plen", f)], [("prefix", e), ("plen", f)]);
    PrintfStep("address", d, [("prefix", e), ("plen", f)], [("address", d), ("prefix", e), ("plen", f)]);
    PrintfStep("timestamp", c, [("address", d), ("prefix", e), ("plen", f)],
               [("timestamp", c), ("address", d), ("prefix", e), ("plen", f)]);
    PrintfStep("lifetime", b, [("timestamp", c), ("address", d), ("prefix", e), ("plen", f)],
               [("lifetime", b), ("timestamp", c), ("address", d), ("prefix", e), ("plen", f)]);
    PrintfStep("gateway", a, [("lifetime", b), ("timestamp", c), ("address", d), ("prefix", e), ("plen", f)],
               [("gateway", a), ("lifetime", b), ("timestamp", c), ("address", d), ("prefix", e), ("plen", f)]);
  }

  lemma LettersOk(k: string)
    requires k != "" && forall i :: 0 <= i < |k| ==> 'a' <= k[i] <= 'z' || k[i] == '_'
    ensures KeyOk(k)
  {
  }

  /** The keys of the four formats. */
  lemma KeysOk()
    ensures KeyOk("gateway") && KeyOk("address") && KeyOk("lifetime") && KeyOk("timestamp") && KeyOk("prefix") && KeyOk("plen")
    ensures KeyOk("delegated_prefix") && KeyOk("delegated_length") && KeyOk("vltime") && KeyOk("pltime")
  {
    hide KeyOk;
    LettersOk("gateway");
    LettersOk("address");
    LettersOk("lifetime");
    LettersOk("timestamp");
    LettersOk("prefix");
    LettersOk("plen");
    LettersOk("delegated_prefix");
    LettersOk("delegated_length");
    LettersOk("vltime");
    LettersOk("pltime");
  }
}
