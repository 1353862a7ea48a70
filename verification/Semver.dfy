/**
 Version tags as ctx.go orders them: three dotted runs of digits, compared by
 the semver package, which works on the digit strings without reading them as
 numbers. Precedence is that of section 11 of Semantic Versioning 2.0.0.
 */
module Semver {
  import opened Wrappers
  import opened Text

  predicate IsNumber(s: string) {
    s != "" && forall i :: 0 <= i < |s| ==> IsDigit(s[i])
  }

  /** The tags the regular expression of ctx.go accepts. */
  predicate IsTag(s: string) {
    var p := Split(s, '.');
    |p| == 3 && IsNumber(p[0]) && IsNumber(p[1]) && IsNumber(p[2])
  }

  predicate AllDigits(s: string) {
    s != "" && forall i :: 0 <= i < |s| ==> '0' <= s[i] <= '9'
  }

  /** Three runs of digits with dots between them are a tag. */
  lemma TripleIsTag(x: string, y: string, z: string)
    requires AllDigits(x) && AllDigits(y) && AllDigits(z)
    ensures IsTag(x + "." + y + "." + z)
  {
    TagParts(x, y, z);
  }

  /** Every tag is three runs of digits with dots between them. */
  lemma TagIsTriple(s: string) returns (x: string, y: string, z: string)
    requires IsTag(s)
    ensures AllDigits(x) && AllDigits(y) && AllDigits(z) && s == x + "." + y + "." + z
  {
    var p := Split(s, '.');
    x, y, z := p[0], p[1], p[2];
    JoinSplit(s, '.');
    JoinThree(x, y, z, '.');
    assert p == [x, y, z];
    forall t | t in p
      ensures AllDigits(t)
    {
      assert forall i :: 0 <= i < |t| ==> IsDigit(t[i]);
    }
    assert x + ['.'] + (y + ['.'] + z) == x + "." + y + "." + z;
  }

  predicate LeadingZero(s: string) {
    |s| > 1 && s[0] == '0'
  }

  /** A tag the semver package accepts: section 2 forbids leading zeros. */
  predicate IsValid(s: string)
    requires IsTag(s)
  {
    var p := Split(s, '.');
    !LeadingZero(p[0]) && !LeadingZero(p[1]) && !LeadingZero(p[2])
  }

  // ---- Strings in byte order ---------------------------------------------------

  predicate StringLess(a: string, b: string) {
    b != "" && (a == "" || a[0] < b[0] || (a[0] == b[0] && StringLess(a[1..], b[1..])))
  }

  lemma {:induction false} StringLessIrreflexive(a: string)
    ensures !StringLess(a, a)
  {
    if a != "" {
      StringLessIrreflexive(a[1..]);
    }
  }

  lemma {:induction false} StringLessTransitive(a: string, b: string, c: string)
    requires StringLess(a, b) && StringLess(b, c)
    ensures StringLess(a, c)
  {
    if a != "" && a[0] == b[0] == c[0] {
      StringLessTransitive(a[1..], b[1..], c[1..]);
    }
  }

  lemma {:induction false} StringLessConnected(a: string, b: string)
    ensures a == b || StringLess(a, b) || StringLess(b, a)
  {
    if a != "" && b != "" && a[0] == b[0] {
      StringLessConnected(a[1..], b[1..]);
      assert a == [a[0]] + a[1..] && b == [b[0]] + b[1..];
    }
  }

  // ---- Numbers compared as strings ---------------------------------------------

  function Pow10(n: nat): (p: nat)
    ensures p >= 1
  {
    if n == 0 then 1 else 10 * Pow10(n - 1)
  }

  function Value(s: string): nat
    requires forall i :: 0 <= i < |s| ==> IsDigit(s[i])
  {
    if s == "" then 0
    else
      assert IsDigit(s[0]);
      (s[0] - '0') as nat * Pow10(|s| - 1) + Value(s[1..])
  }

  /** compareInt of the semver package: by length, then as strings. */
  function CompareInt(x: string, y: string): int {
    if x == y then 0
    else if |x| < |y| then -1
    else if |x| > |y| then 1
    else if StringLess(x, y) then -1
    else 1
  }

  function Sign(n: int): int {
    if n < 0 then -1 else if n > 0 then 1 else 0
  }

  lemma DigitTimes(d: nat, e: nat, p: nat)
    requires d < e
    ensures d * p + p <= e * p
  {
    assert (d + 1) * p == d * p + p;
    assert (d + 1) * p <= e * p;
  }

  lemma {:induction false} ValueBound(s: string)
    requires forall i :: 0 <= i < |s| ==> IsDigit(s[i])
    ensures Value(s) < Pow10(|s|)
    ensures s != "" && s[0] != '0' ==> Value(s) >= Pow10(|s| - 1)
  {
    if s != "" {
      ValueBound(s[1..]);
      DigitTimes((s[0] - '0') as nat, 10, Pow10(|s| - 1));
      if s[0] != '0' {
        DigitTimes(0, (s[0] - '0') as nat, Pow10(|s| - 1));
      }
    }
  }

  lemma {:induction false} Pow10Monotone(m: nat, n: nat)
    requires m <= n
    ensures Pow10(m) <= Pow10(n)
    decreases n
  {
    if m < n {
      Pow10Monotone(m, n - 1);
    }
  }

  lemma {:induction false} SameLength(x: string, y: string)
    requires |x| == |y| && (forall i :: 0 <= i < |x| ==> IsDigit(x[i]) && IsDigit(y[i]))
    ensures StringLess(x, y) <==> Value(x) < Value(y)
    ensures x == y <==> Value(x) == Value(y)
  {
    if x != "" {
      var a, b := x[1..], y[1..];
      SameLength(a, b);
      ValueBound(a);
      ValueBound(b);
      assert x == [x[0]] + a && y == [y[0]] + b;
      if x[0] < y[0] {
        DigitTimes((x[0] - '0') as nat, (y[0] - '0') as nat, Pow10(|a|));
      } else if y[0] < x[0] {
        DigitTimes((y[0] - '0') as nat, (x[0] - '0') as nat, Pow10(|a|));
      }
    }
  }

  /** Without leading zeros, comparing digit strings compares the numbers they write. */
  lemma CompareIntIsNumeric(x: string, y: string)
    requires IsNumber(x) && IsNumber(y) && !LeadingZero(x) && !LeadingZero(y)
    ensures CompareInt(x, y) == Sign(Value(x) - Value(y))
  {
    if |x| == |y| {
      SameLength(x, y);
    } else {
      var s, l := if |x| < |y| then x else y, if |x| < |y| then y else x;
      ValueBound(s);
      ValueBound(l);
      Pow10Monotone(|s|, |l| - 1);
    }
  }

  // ---- Versions ------------------------------------------------------------------

  /** semver.Compare of two versions: an unacceptable one is below every other, and like its kind. */
  function Compare(a: string, b: string): int
    requires IsTag(a) && IsTag(b)
  {
    if !IsValid(a) && !IsValid(b) then 0
    else if !IsValid(a) then -1
    else if !IsValid(b) then 1
    else
      var p, q := Split(a, '.'), Split(b, '.');
      if CompareInt(p[0], q[0]) != 0 then CompareInt(p[0], q[0])
      else if CompareInt(p[1], q[1]) != 0 then CompareInt(p[1], q[1])
      else CompareInt(p[2], q[2])
  }

  /** The order semver.Sort sorts by; ties are broken as strings. */
  predicate Less(a: string, b: string)
    requires IsTag(a) && IsTag(b)
  {
    Compare(a, b) < 0 || (Compare(a, b) == 0 && StringLess(a, b))
  }

  /** Major, minor and patch. */
  function Triple(s: string): (nat, nat, nat)
    requires IsTag(s)
  {
    var p := Split(s, '.');
    (Value(p[0]), Value(p[1]), Value(p[2]))
  }

  predicate TripleLess(a: (nat, nat, nat), b: (nat, nat, nat)) {
    || a.0 < b.0
    || (a.0 == b.0 && a.1 < b.1)
    || (a.0 == b.0 && a.1 == b.1 && a.2 < b.2)
  }

  /** On tags without leading zeros the order is numeric, part by part, and equal numbers mean equal tags. */
  lemma LessIsNumeric(a: string, b: string)
    requires IsTag(a) && IsTag(b) && IsValid(a) && IsValid(b)
    ensures Less(a, b) <==> TripleLess(Triple(a), Triple(b))
    ensures Triple(a) == Triple(b) <==> a == b
  {
    var p, q := Split(a, '.'), Split(b, '.');
    CompareIntIsNumeric(p[0], q[0]);
    CompareIntIsNumeric(p[1], q[1]);
    CompareIntIsNumeric(p[2], q[2]);
    if Triple(a) == Triple(b) {
      assert p == q;
      JoinSplit(a, '.');
      JoinSplit(b, '.');
      StringLessIrreflexive(a);
    }
  }

  lemma LessOnTags(a: string, b: string)
    requires IsTag(a) && IsTag(b)
    ensures Less(a, b) <==> if IsValid(a) && IsValid(b) then TripleLess(Triple(a), Triple(b))
                            else if IsValid(a) || IsValid(b) then IsValid(b)
                            else StringLess(a, b)
  {
    if IsValid(a) && IsValid(b) {
      LessIsNumeric(a, b);
    }
  }

  /** The order is a strict total order on all tags, leading zeros or not. */
  lemma LessIsStrictTotal(a: string, b: string, c: string)
    requires IsTag(a) && IsTag(b) && IsTag(c)
    ensures !Less(a, a)
    ensures Less(a, b) && Less(b, c) ==> Less(a, c)
    ensures a == b || Less(a, b) || Less(b, a)
  {
    LessOnTags(a, a);
    LessOnTags(a, b);
    LessOnTags(b, a);
    LessOnTags(b, c);
    LessOnTags(a, c);
    StringLessIrreflexive(a);
    StringLessConnected(a, b);
    if StringLess(a, b) && StringLess(b, c) {
      StringLessTransitive(a, b, c);
    }
    if IsValid(a) && IsValid(b) {
      LessIsNumeric(a, b);
    }
  }

  // ---- Tags of numbers -----------------------------------------------------------

  lemma {:induction false} ValueAppend(s: string, d: char)
    requires (forall i :: 0 <= i < |s| ==> IsDigit(s[i])) && IsDigit(d)
    ensures (forall i :: 0 <= i < |s + [d]| ==> IsDigit((s + [d])[i]))
    ensures Value(s + [d]) == 10 * Value(s) + (d - '0') as nat
  {
    if s == "" {
      assert s + [d] == [d] && [d][1..] == "";
    } else {
      ValueAppend(s[1..], d);
      assert (s + [d])[1..] == s[1..] + [d];
      TenTimes((s[0] - '0') as nat, Pow10(|s| - 1));
    }
  }

  lemma TenTimes(d: nat, p: nat)
    ensures d * (10 * p) == 10 * (d * p)
  {
  }

  /** A number written in decimal is read back, and has no leading zero. */
  lemma {:induction false} DecimalValue(n: nat)
    ensures IsNumber(Decimal(n)) && Value(Decimal(n)) == n && !LeadingZero(Decimal(n))
  {
    if n < 10 {
      assert Decimal(n)[1..] == "";
    } else {
      DecimalValue(n / 10);
      ValueAppend(Decimal(n / 10), HexDigit(n % 10));
    }
  }

  /** The tag of three numbers. */
  function TagOf(major: nat, minor: nat, patch: nat): string {
    Decimal(major) + "." + Decimal(minor) + "." + Decimal(patch)
  }

  lemma TagParts(x: string, y: string, z: string)
    requires AllDigits(x) && AllDigits(y) && AllDigits(z)
    ensures Split(x + "." + y + "." + z, '.') == [x, y, z]
  {
    JoinThree(x, y, z, '.');
    assert x + "." + y + "." + z == x + ['.'] + (y + ['.'] + z);
    SplitJoin([x, y, z], '.');
  }

  /** It is a tag the semver package accepts, and its numbers are those it was made of. */
  lemma TagOfNumbers(major: nat, minor: nat, patch: nat)
    ensures var t := TagOf(major, minor, patch);
            IsTag(t) && IsValid(t) && Triple(t) == (major, minor, patch)
  {
    DecimalValue(major);
    DecimalValue(minor);
    DecimalValue(patch);
    hide Decimal, Value, LeadingZero;
    TagParts(Decimal(major), Decimal(minor), Decimal(patch));
  }

  /** So tags of numbers are ordered as the numbers are: by major, then minor, then patch. */
  lemma TagsInOrder(a: (nat, nat, nat), b: (nat, nat, nat))
    ensures IsTag(TagOf(a.0, a.1, a.2)) && IsTag(TagOf(b.0, b.1, b.2))
    ensures Less(TagOf(a.0, a.1, a.2), TagOf(b.0, b.1, b.2))
       <==> a.0 < b.0 || (a.0 == b.0 && (a.1 < b.1 || (a.1 == b.1 && a.2 < b.2)))
  {
    TagOfNumbers(a.0, a.1, a.2);
    TagOfNumbers(b.0, b.1, b.2);
    hide TagOf, Triple, Less, IsTag, IsValid;
    LessIsNumeric(TagOf(a.0, a.1, a.2), TagOf(b.0, b.1, b.2));
  }

  // ---- Sorting -------------------------------------------------------------------

  ghost predicate AllTags(v: seq<string>) {
    forall i :: 0 <= i < |v| ==> IsTag(v[i])
  }

  ghost predicate Ascending(v: seq<string>)
    requires AllTags(v)
  {
    forall i, j :: 0 <= i < j < |v| ==> !Less(v[j], v[i])
  }

  lemma InsertParts(x: string, v: seq<string>, t: seq<string>)
    requires v != [] && multiset(t) == multiset(v[1..]) + multiset{x}
    ensures multiset([v[0]] + t) == multiset(v) + multiset{x}
  {
    assert v == [v[0]] + v[1..];
  }

  function Insert(x: string, v: seq<string>): (w: seq<string>)
    requires IsTag(x) && AllTags(v)
    ensures AllTags(w) && multiset(w) == multiset(v) + multiset{x}
  {
    hide IsTag, Less;
    if v == [] then [x]
    else if Less(v[0], x) then
      var t := Insert(x, v[1..]);
      InsertParts(x, v, t);
      [v[0]] + t
    else [x] + v
  }

  /** Stands for semver.Sort; LessIsStrictTotal leaves one ascending arrangement. */
  function Sort(v: seq<string>): (w: seq<string>)
    requires AllTags(v)
    ensures AllTags(w) && multiset(w) == multiset(v)
  {
    if v == [] then []
    else
      assert v == [v[0]] + v[1..];
      Insert(v[0], Sort(v[1..]))
  }

  lemma AscendingTail(v: seq<string>)
    requires v != [] && AllTags(v) && Ascending(v)
    ensures AllTags(v[1..]) && Ascending(v[1..]) && IsTag(v[0])
    ensures forall y :: y in v ==> IsTag(y) && (y == v[0] || !Less(y, v[0]))
  {
  }

  lemma Prepended(x: string, v: seq<string>)
    requires IsTag(x) && AllTags(v) && (v != [] ==> Ascending(v))
    requires forall y :: y in v ==> !Less(y, x)
    ensures AllTags([x] + v) && Ascending([x] + v)
  {
    var w := [x] + v;
    assert forall j :: 0 < j < |w| ==> w[j] == v[j - 1] && w[j] in v;
  }

  lemma {:induction false} InsertAscends(x: string, v: seq<string>)
    requires IsTag(x) && AllTags(v) && Ascending(v)
    ensures Ascending(Insert(x, v))
  {
    hide Less, IsTag, Ascending;
    if v == [] {
      Prepended(x, v);
      assert [x] + v == [x];
    } else {
      AscendingTail(v);
      if Less(v[0], x) {
        var t := Insert(x, v[1..]);
        InsertAscends(x, v[1..]);
        forall y | y in t
          ensures !Less(y, v[0])
        {
          assert y in multiset(t);
          assert y == x || y in v[1..];
          LessIsStrictTotal(v[0], x, v[0]);
          LessIsStrictTotal(v[0], v[0], v[0]);
        }
        Prepended(v[0], t);
      } else {
        forall y | y in v
          ensures !Less(y, x)
        {
          LessIsStrictTotal(v[0], y, x);
          LessIsStrictTotal(y, x, v[0]);
        }
        Prepended(x, v);
      }
    }
  }

  lemma {:induction false} SortAscends(v: seq<string>)
    requires AllTags(v)
    ensures Ascending(Sort(v))
  {
    if v != [] {
      SortAscends(v[1..]);
      InsertAscends(v[0], Sort(v[1..]));
    }
  }

  lemma SortKeepsElements(v: seq<string>)
    requires AllTags(v)
    ensures forall t :: t in Sort(v) <==> t in v
  {
    assert forall t :: t in Sort(v) <==> t in multiset(Sort(v));
    assert forall t :: t in v <==> t in multiset(v);
  }

  // ---- Selection -----------------------------------------------------------------

  predicate Common(nk: seq<string>, pb: seq<string>, r: string) {
    r in nk && r in pb && IsTag(r)
  }

  /** The greatest version tag in both lists. */
  ghost predicate Greatest(nk: seq<string>, pb: seq<string>, r: string) {
    Common(nk, pb, r) && forall c :: Common(nk, pb, c) ==> c == r || Less(c, r)
  }

  /** The last common tag of an ascending list that has every tag of nk. */
  lemma LastIsGreatest(nk: seq<string>, pb: seq<string>, s: seq<string>, i: nat)
    requires AllTags(s) && Ascending(s) && i < |s| && s[i] in nk && s[i] in pb
    requires forall t :: t in nk && IsTag(t) ==> t in s
    requires forall j :: i < j < |s| ==> s[j] !in pb
    ensures Greatest(nk, pb, s[i])
  {
    forall c | Common(nk, pb, c)
      ensures c == s[i] || Less(c, s[i])
    {
      var j :| 0 <= j < |s| && s[j] == c;
      LessIsStrictTotal(c, s[i], c);
    }
  }

  method PluginbuilderTags(pb: seq<string>) returns (m: map<string, bool>)
    ensures forall t :: t in m <==> t in pb && IsTag(t)
    ensures forall t :: t in m ==> m[t]
  {
    m := map[];
    for i := 0 to |pb|
      invariant forall t :: t in m <==> t in pb[..i] && IsTag(t)
      invariant forall t :: t in m ==> m[t]
    {
      if IsTag(pb[i]) { m := m[pb[i] := true]; }
    }
    assert pb[..|pb|] == pb;
  }

  /** ctx.go keeps these with a v in front, which changes no comparison among them. */
  method NakamaTags(nk: seq<string>) returns (v: seq<string>)
    ensures AllTags(v) && forall t :: t in v <==> t in nk && IsTag(t)
  {
    v := [];
    for i := 0 to |nk|
      invariant AllTags(v)
      invariant forall t :: t in v <==> t in nk[..i] && IsTag(t)
    {
      if IsTag(nk[i]) { v := v + [nk[i]]; }
    }
    assert nk[..|nk|] == nk;
  }

  /** The scan from the end of the sorted list. */
  method LastIn(s: seq<string>, m: map<string, bool>) returns (i: int)
    ensures -1 <= i < |s|
    ensures i >= 0 ==> s[i] in m && m[s[i]]
    ensures forall j :: i < j < |s| ==> s[j] !in m || !m[s[j]]
  {
    i := |s| - 1;
    while i >= 0
      invariant -1 <= i < |s|
      invariant forall j :: i < j < |s| ==> s[j] !in m || !m[s[j]]
    {
      if s[i] in m && m[s[i]] { return; }
      i := i - 1;
    }
  }

  /** The choice of ctx.go: the last tag of the sorted nk list that pb has too. */
  method Select(nk: seq<string>, pb: seq<string>) returns (r: Option<string>)
    ensures r.Some? ==> Greatest(nk, pb, r.value)
    ensures r.None? ==> forall c :: !Common(nk, pb, c)
  {
    hide Sort, Less, IsTag;
    var m := PluginbuilderTags(pb);
    var v := NakamaTags(nk);
    var s := Sort(v);
    SortAscends(v);
    SortKeepsElements(v);
    var i := LastIn(s, m);
    if i < 0 {
      assert forall c :: c in s ==> c !in m;
      return None;
    }
    LastIsGreatest(nk, pb, s, i);
    return Some(s[i]);
  }

  /** The selected version, if there is a common one. */
  ghost function Selection(nk: seq<string>, pb: seq<string>): (r: Option<string>)
    ensures r.Some? ==> Greatest(nk, pb, r.value)
  {
    if exists c :: Greatest(nk, pb, c) then
      var c :| Greatest(nk, pb, c);
      Some(c)
    else None
  }

  /** Greatest picks at most one tag, so what the loop finds is the selection. */
  lemma GreatestUnique(nk: seq<string>, pb: seq<string>, r: string)
    requires Greatest(nk, pb, r)
    ensures Selection(nk, pb) == Some(r)
  {
    var s := Selection(nk, pb).value;
    LessIsStrictTotal(r, s, r);
  }

  lemma NoneCommon(nk: seq<string>, pb: seq<string>)
    requires forall c :: !Common(nk, pb, c)
    ensures Selection(nk, pb) == None
  {
  }

  /** The selection depends only on which tags occur, not on their order or repetition. */
  lemma SelectionOfSets(nk: seq<string>, pb: seq<string>, nk': seq<string>, pb': seq<string>)
    requires (forall t :: t in nk <==> t in nk') && (forall t :: t in pb <==> t in pb')
    ensures Selection(nk, pb) == Selection(nk', pb')
  {
    forall t
      ensures Greatest(nk, pb, t) <==> Greatest(nk', pb', t)
    {
      assert forall c :: Common(nk, pb, c) <==> Common(nk', pb', c);
    }
    if exists c :: Greatest(nk, pb, c) {
      var c :| Greatest(nk, pb, c);
      GreatestUnique(nk, pb, c);
      GreatestUnique(nk', pb', c);
    }
  }

  /**
   Among tags without leading zeros the selection is the numerically greatest
   common version; a tag with one is selected only when there is no other.
   */
  lemma SelectionIsNumericMaximum(nk: seq<string>, pb: seq<string>, r: string, c: string)
    requires Selection(nk, pb) == Some(r) && Common(nk, pb, c) && IsValid(c)
    ensures IsTag(r) && IsValid(r) && (c == r || TripleLess(Triple(c), Triple(r)))
  {
    LessOnTags(c, r);
  }
}
