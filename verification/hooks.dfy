/** hooks.py: which event scripts run, and in what order. */
module Hooks {
  import opened Naming

  datatype Origin = System | User

  datatype Script = Script(origin: Origin, name: string)

  // ---------------------------------------------------------------- names

  function DigitsEnd(s: string): (k: nat)
    ensures k <= |s| && (forall i :: 0 <= i < k ==> IsDigit(s[i])) && (k < |s| ==> !IsDigit(s[k]))
  {
    if s != "" && IsDigit(s[0]) then 1 + DigitsEnd(s[1..]) else 0
  }

  /** A number of `k` digits and a hyphen lead the name. */
  predicate NumberedTo(s: string, k: int) { 0 < k < |s| && s[k] == '-' && forall i :: 0 <= i < k ==> IsDigit(s[i]) }

  /** The name without a leading run of digits and a hyphen. */
  function Stem(s: string): (r: string)
    ensures (exists k :: NumberedTo(s, k) && r == s[k + 1..]) || (r == s && forall k :: !NumberedTo(s, k))
  {
    var k := DigitsEnd(s);
    assert forall j :: NumberedTo(s, j) ==> j == k;
    assert 0 < k < |s| && s[k] == '-' ==> NumberedTo(s, k);
    if 0 < k < |s| && s[k] == '-' then s[k + 1..] else s
  }

  predicate EndsWith(s: string, t: string) { |t| <= |s| && s[|s| - |t|..] == t }

  const BACKUP_SUFFIXES := [".bak", ".dpkg-old", ".dpkg-new", ".dpkg-dist", ".dpkg-tmp", ".rpmsave", ".rpmnew", ".rpmorig", ".swp", "~"]

  predicate IsCandidate(s: string) {
    !(|s| > 0 && s[0] == '.') && forall i :: 0 <= i < |BACKUP_SUFFIXES| ==> !EndsWith(s, BACKUP_SUFFIXES[i])
  }

  /** Order of code points. */
  predicate Before(a: string, b: string) {
    if b == "" then false
    else if a == "" then true
    else a[0] < b[0] || (a[0] == b[0] && Before(a[1..], b[1..]))
  }

  /** The order of the C locale: a proper prefix comes first, else the first character that differs decides. */
  lemma {:induction false} BeforeMeans(a: string, b: string)
    ensures Before(a, b) <==> a < b || exists k :: FirstDifference(a, b, k) && a[k] < b[k]
  {
    if a != "" && b != "" && a[0] == b[0] {
      BeforeMeans(a[1..], b[1..]);
      assert a == [a[0]] + a[1..] && b == [b[0]] + b[1..];
      assert a < b <==> a[1..] < b[1..];
      forall k ensures FirstDifference(a[1..], b[1..], k) <==> k >= 0 && FirstDifference(a, b, k + 1) {
        Differ(a, b, k);
      }
      assert forall k :: FirstDifference(a, b, k) ==> FirstDifference(a[1..], b[1..], k - 1);
    } else if a != "" && b != "" {
      assert FirstDifference(a, b, 0);
    }
  }

  predicate FirstDifference(a: string, b: string, k: int) {
    0 <= k < |a| && k < |b| && a[..k] == b[..k] && a[k] != b[k]
  }

  lemma Differ(a: string, b: string, k: int)
    requires a != "" && b != "" && a[0] == b[0]
    ensures FirstDifference(a[1..], b[1..], k) <==> k >= 0 && FirstDifference(a, b, k + 1)
  {
    if 0 <= k < |a| - 1 && k < |b| - 1 {
      assert a[..k + 1] == [a[0]] + a[1..][..k] && b[..k + 1] == [b[0]] + b[1..][..k];
    }
  }

  lemma {:induction false} BeforeIsTotal(a: string, b: string)
    ensures Before(a, b) || Before(b, a) || a == b
    ensures !(Before(a, b) && Before(b, a))
    ensures !Before(a, a)
  {
    if a != "" && b != "" {
      BeforeIsTotal(a[1..], b[1..]);
      assert a[0] == b[0] && a[1..] == b[1..] ==> a == [a[0]] + a[1..] == b;
    }
    if a != "" {
      BeforeIsTotal(a[1..], a[1..]);
    }
  }

  lemma {:induction false} BeforeIsTransitive(a: string, b: string, c: string)
    requires Before(a, b) && Before(b, c)
    ensures Before(a, c)
  {
    if a != "" && b != "" && c != "" && a[0] == b[0] == c[0] {
      BeforeIsTransitive(a[1..], b[1..], c[1..]);
    }
  }

  // ---------------------------------------------------------------- resolve_hook_scripts

  predicate Shadowed(name: string, user: seq<string>) {
    exists i :: 0 <= i < |user| && IsCandidate(user[i]) && Stem(user[i]) == Stem(name)
  }

  /** What is to run: every user candidate, and the system candidates that none of them shadows. */
  predicate Runs(s: Script, system: seq<string>, user: seq<string>) {
    && IsCandidate(s.name)
    && match s.origin
       case User => s.name in user
       case System => s.name in system && !Shadowed(s.name, user)
  }

  predicate StrictlySorted(r: seq<Script>) {
    forall i, j :: 0 <= i < j < |r| ==> Before(r[i].name, r[j].name)
  }

  predicate Sorted(r: seq<Script>) {
    forall i, j :: 0 <= i < j < |r| ==> !Before(r[j].name, r[i].name)
  }

  ghost predicate Distinct<T>(s: seq<T>) { forall i, j :: 0 <= i < j < |s| ==> s[i] != s[j] }

  /** `survivors.sort(key=...)`, in place. */
  method SortByName(a: array<Script>)
    modifies a
    ensures Sorted(a[..]) && multiset(a[..]) == multiset(old(a[..]))
  {
    for i := 0 to a.Length
      invariant Sorted(a[..i]) && multiset(a[..]) == multiset(old(a[..]))
    {
      SinkLast(a, i);
    }
    assert a[..a.Length] == a[..];
  }

  /** Elements 0 to `i` are in order but for the one at `j`, which belongs before all that follow it. */
  predicate Sinking(s: seq<Script>, i: nat, j: nat) {
    && j <= i < |s|
    && (forall k, l :: 0 <= k < l <= i && k != j && l != j ==> !Before(s[l].name, s[k].name))
    && (forall l :: j < l <= i ==> Before(s[j].name, s[l].name))
  }

  lemma SinkStep(s: seq<Script>, i: nat, j: nat)
    requires 0 < j && Sinking(s, i, j) && Before(s[j].name, s[j - 1].name)
    ensures var t := s[j - 1 := s[j]][j := s[j - 1]]; Sinking(t, i, j - 1) && multiset(t) == multiset(s)
  {
    hide Before;
  }

  lemma SinkEnd(s: seq<Script>, i: nat, j: nat)
    requires Sinking(s, i, j) && (j > 0 ==> !Before(s[j].name, s[j - 1].name))
    ensures Sorted(s[..i + 1])
  {
    hide Before;
    forall k, l | 0 <= k < l <= i ensures !Before(s[l].name, s[k].name) {
      if k == j {
        BeforeIsTotal(s[j].name, s[l].name);
      } else if l == j && k < j - 1 {
        NotBeforeIsTransitive(s[j].name, s[j - 1].name, s[k].name);
      }
    }
  }

  /** Move element `i` down to its place among the sorted elements before it. */
  method SinkLast(a: array<Script>, i: nat)
    requires i < a.Length && Sorted(a[..i])
    modifies a
    ensures Sorted(a[..i + 1]) && multiset(a[..]) == multiset(old(a[..]))
  {
    hide Before, Sinking;
    var j := i;
    assert Sinking(a[..], i, i) by { SinkStart(a[..], i); }
    while j > 0 && Before(a[j].name, a[j - 1].name)
      invariant 0 <= j <= i && Sinking(a[..], i, j)
      invariant multiset(a[..]) == multiset(old(a[..]))
    {
      ghost var s := a[..];
      SinkStep(s, i, j);
      a[j - 1], a[j] := a[j], a[j - 1];
      assert a[..] == s[j - 1 := s[j]][j := s[j - 1]];
      j := j - 1;
    }
    SinkEnd(a[..], i, j);
    assert a[..][..i + 1] == a[..i + 1];
  }

  lemma SinkStart(s: seq<Script>, i: nat)
    requires i < |s| && Sorted(s[..i])
    ensures Sinking(s, i, i)
  {
    hide Before;
    assert forall k :: 0 <= k < i ==> s[..i][k] == s[k];
  }

  lemma {:induction false} NotBeforeIsTransitive(a: string, b: string, c: string)
    requires !Before(a, b) && !Before(b, c)
    ensures !Before(a, c)
  {
    BeforeIsTotal(a, b);
    BeforeIsTotal(b, c);
    if Before(a, c) {
      if a != b {
        BeforeIsTransitive(b, a, c);
      }
    }
  }

  /** The loops of resolve_hook_scripts up to the sort; a directory lists a name once. */
  method Survivors(system: seq<string>, user: seq<string>) returns (r: seq<Script>)
    requires Distinct(system) && Distinct(user)
    ensures Distinct(r) && forall s :: s in r <==> Runs(s, system, user)
  {
    r := [];
    for i := 0 to |user|
      invariant Distinct(r)
      invariant forall s :: s in r <==> s.origin == User && IsCandidate(s.name) && s.name in user[..i]
    {
      if IsCandidate(user[i]) {
        assert user[i] !in user[..i];
        r := r + [Script(User, user[i])];
      }
    }
    for i := 0 to |system|
      invariant Distinct(r)
      invariant forall s :: s in r <==> Runs(s, system[..i], user)
    {
      if IsCandidate(system[i]) && !Shadowed(system[i], user) {
        assert system[i] !in system[..i];
        assert !Runs(Script(System, system[i]), system[..i], user);
        r := r + [Script(System, system[i])];
      }
    }
  }

  /** Exactly the user candidates and the unshadowed system candidates, strictly sorted by file name. */
  method ResolveHookScripts(system: seq<string>, user: seq<string>) returns (r: seq<Script>)
    requires Distinct(system) && Distinct(user)
    ensures StrictlySorted(r)
    ensures forall s :: s in r <==> Runs(s, system, user)
  {
    hide Before, Runs, Shadowed;
    var survivors := Survivors(system, user);
    var a := new Script[|survivors|](i requires 0 <= i < |survivors| => survivors[i]);
    assert a[..] == survivors;
    SortByName(a);
    r := a[..];
    SameElements(r, survivors);
    StrictlyBecauseShadowed(r, system, user);
  }

  /** Who runs: no system script whose stem a user script has, and every other candidate. */
  lemma ShadowedByStem(r: seq<Script>, system: seq<string>, user: seq<string>)
    requires forall s :: s in r <==> Runs(s, system, user)
    ensures forall s, t :: s in r && t in r && s.origin == System && t.origin == User ==> Stem(s.name) != Stem(t.name)
    ensures forall n :: n in user && IsCandidate(n) ==> Script(User, n) in r
    ensures forall n :: n in system && IsCandidate(n) ==>
              (Script(System, n) in r <==> forall t :: t in r && t.origin == User ==> Stem(t.name) != Stem(n))
    ensures forall s :: s in r ==> IsCandidate(s.name) && s.name in (if s.origin == User then user else system)
  {
    hide IsCandidate, Stem;
    forall n | n in system && IsCandidate(n) && Shadowed(n, user)
      ensures exists t :: t in r && t.origin == User && Stem(t.name) == Stem(n)
    {
      var i :| 0 <= i < |user| && IsCandidate(user[i]) && Stem(user[i]) == Stem(n);
      assert Script(User, user[i]) in r;
    }
  }

  lemma SameElements<T>(r: seq<T>, s: seq<T>)
    requires multiset(r) == multiset(s) && Distinct(s)
    ensures Distinct(r) && forall e :: e in r <==> e in s
  {
    forall e ensures e in r <==> e in s {
      assert e in r <==> e in multiset(r);
      assert e in s <==> e in multiset(s);
    }
    OnceEach(s);
    Repeated(r);
  }

  lemma Repeated<T>(r: seq<T>)
    ensures forall i, j :: 0 <= i < j < |r| && r[i] == r[j] ==> multiset(r)[r[i]] >= 2
  {
    forall i, j | 0 <= i < j < |r| && r[i] == r[j] ensures multiset(r)[r[i]] >= 2 {
      assert r == r[..i] + [r[i]] + r[i + 1..j] + [r[j]] + r[j + 1..];
    }
  }

  lemma {:induction false} OnceEach<T>(s: seq<T>)
    requires Distinct(s)
    ensures forall e :: multiset(s)[e] <= 1
  {
    if s != [] {
      var most, last := s[..|s| - 1], s[|s| - 1];
      assert s == most + [last];
      OnceEach(most);
      assert last !in most;
      assert multiset(most)[last] == 0;
    }
  }

  /** A user script and a system script never have one name: the name would shadow itself. */
  lemma StrictlyBecauseShadowed(r: seq<Script>, system: seq<string>, user: seq<string>)
    requires Sorted(r) && Distinct(r) && forall s :: s in r ==> Runs(s, system, user)
    ensures StrictlySorted(r)
  {
    hide Before, Stem, IsCandidate;
    forall i, j | 0 <= i < j < |r| ensures Before(r[i].name, r[j].name) {
      BeforeIsTotal(r[i].name, r[j].name);
      assert Runs(r[i], system, user) && Runs(r[j], system, user);
    }
  }

  /** A strictly sorted list is determined by its elements, so the order in which directories list their entries is immaterial. */
  lemma {:induction false} OrderImmaterial(r: seq<Script>, s: seq<Script>)
    requires StrictlySorted(r) && StrictlySorted(s) && forall e :: e in r <==> e in s
    ensures r == s
  {
    hide Before;
    assert s == [] || s[0] in s;
    if r != [] {
      assert r[0] in s && s != [];
      assert s[0] in r;
      SameFirst(r, s);
      forall e ensures e in r[1..] <==> e in s[1..] {
        InRest(r, e);
        InRest(s, e);
      }
      OrderImmaterial(r[1..], s[1..]);
      assert r == [r[0]] + r[1..] && s == [s[0]] + s[1..];
    }
  }

  lemma InRest(r: seq<Script>, e: Script)
    requires StrictlySorted(r) && r != []
    ensures e in r[1..] <==> e in r && e != r[0]
  {
    hide Before;
    BeforeIsTotal(r[0].name, r[0].name);
    assert r == [r[0]] + r[1..];
    assert forall k :: 0 <= k < |r[1..]| ==> r[1..][k] == r[k + 1] && Before(r[0].name, r[k + 1].name);
  }

  lemma FirstIsLeast(r: seq<Script>, e: Script)
    requires StrictlySorted(r) && e in r
    ensures r[0] == e || Before(r[0].name, e.name)
  {
    hide Before;
  }

  lemma SameFirst(r: seq<Script>, s: seq<Script>)
    requires StrictlySorted(r) && StrictlySorted(s) && r != [] && s != [] && r[0] in s && s[0] in r
    ensures r[0] == s[0]
  {
    hide Before, StrictlySorted;
    FirstIsLeast(r, s[0]);
    FirstIsLeast(s, r[0]);
    BeforeIsTotal(r[0].name, s[0].name);
  }
}
