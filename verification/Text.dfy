/** Splitting, joining and trimming, as the bytes and strings packages do them. */
module Text {

  /** The pieces of s between occurrences of c; one piece when c is absent. */
  function Split(s: string, c: char): (parts: seq<string>)
    ensures |parts| >= 1
  {
    if s == "" then [""]
    else if s[0] == c then [""] + Split(s[1..], c)
    else
      var rest := Split(s[1..], c);
      [[s[0]] + rest[0]] + rest[1..]
  }

  function Join(parts: seq<string>, c: char): string {
    if parts == [] then ""
    else if |parts| == 1 then parts[0]
    else parts[0] + [c] + Join(parts[1..], c)
  }

  lemma {:induction false} SplitFree(s: string, c: char)
    ensures forall i :: 0 <= i < |Split(s, c)| ==> c !in Split(s, c)[i]
  {
    if s != "" {
      SplitFree(s[1..], c);
    }
  }

  lemma {:induction false} SplitWhole(s: string, c: char)
    requires c !in s
    ensures Split(s, c) == [s]
  {
    if s != "" {
      SplitWhole(s[1..], c);
      assert [s[0]] + s[1..] == s;
    }
  }

  /** Split with one more character in front. */
  function Cons(x: char, parts: seq<string>, c: char): seq<string>
    requires parts != []
  {
    if x == c then [""] + parts else [[x] + parts[0]] + parts[1..]
  }

  lemma SplitCons(x: char, s: string, c: char)
    ensures Split([x] + s, c) == Cons(x, Split(s, c), c)
  {
    assert ([x] + s)[1..] == s;
  }

  lemma {:induction false} SplitConcat(a: string, c: char, b: string)
    ensures Split(a + [c] + b, c) == Split(a, c) + Split(b, c)
  {
    if a == "" {
      SplitCons(c, b, c);
      assert a + [c] + b == [c] + b;
    } else {
      SplitConcat(a[1..], c, b);
      assert a + [c] + b == [a[0]] + (a[1..] + [c] + b) && a == [a[0]] + a[1..];
      SplitCons(a[0], a[1..] + [c] + b, c);
      SplitCons(a[0], a[1..], c);
      ConsConcat(a[0], Split(a[1..], c), Split(b, c), c);
    }
  }

  lemma ConsConcat(x: char, p: seq<string>, q: seq<string>, c: char)
    requires p != []
    ensures Cons(x, p + q, c) == Cons(x, p, c) + q
  {
    assert (p + q)[0] == p[0] && (p + q)[1..] == p[1..] + q;
  }

  lemma {:induction false} JoinSplit(s: string, c: char)
    ensures Join(Split(s, c), c) == s
  {
    if s != "" {
      JoinSplit(s[1..], c);
      var rest := Split(s[1..], c);
      if s[0] == c {
        assert ([""] + rest)[1..] == rest;
        assert "" + [c] + s[1..] == s;
      } else if |rest| > 1 {
        assert Split(s, c)[1..] == rest[1..];
        assert [s[0]] + rest[0] + [c] + Join(rest[1..], c) == [s[0]] + (rest[0] + [c] + Join(rest[1..], c));
        assert [s[0]] + s[1..] == s;
      } else {
        assert [s[0]] + s[1..] == s;
      }
    }
  }

  lemma {:induction false} SplitJoin(parts: seq<string>, c: char)
    requires parts != [] && forall i :: 0 <= i < |parts| ==> c !in parts[i]
    ensures Split(Join(parts, c), c) == parts
  {
    SplitWhole(parts[0], c);
    if |parts| > 1 {
      SplitConcat(parts[0], c, Join(parts[1..], c));
      SplitJoin(parts[1..], c);
      assert [parts[0]] + parts[1..] == parts;
    }
  }

  lemma {:induction false} JoinAppend(parts: seq<string>, last: string, c: char)
    requires parts != []
    ensures Join(parts + [last], c) == Join(parts, c) + [c] + last
  {
    if |parts| == 1 {
      assert (parts + [last])[1..] == [last];
    } else {
      JoinAppend(parts[1..], last, c);
      assert (parts + [last])[1..] == parts[1..] + [last];
      var rest := Join(parts[1..], c);
      assert parts[0] + [c] + (rest + [c] + last) == parts[0] + [c] + rest + [c] + last;
    }
  }

  lemma JoinThree(a: string, b: string, d: string, c: char)
    ensures Join([a, b, d], c) == a + [c] + (b + [c] + d)
  {
    assert [a, b, d][1..] == [b, d] && [b, d][1..] == [d];
    assert Join([b, d], c) == b + [c] + d;
  }

  /** s without its trailing characters from cut. */
  function TrimRight(s: string, cut: set<char>): string {
    if s != "" && s[|s| - 1] in cut then TrimRight(s[..|s| - 1], cut) else s
  }

  function TrimLeft(s: string, cut: set<char>): string {
    if s != "" && s[0] in cut then TrimLeft(s[1..], cut) else s
  }

  function Trim(s: string, cut: set<char>): string {
    TrimLeft(TrimRight(s, cut), cut)
  }

  lemma {:induction false} TrimRightPrefix(s: string, cut: set<char>)
    ensures var t := TrimRight(s, cut);
            && t <= s && (t != "" ==> t[|t| - 1] !in cut)
            && forall i :: |t| <= i < |s| ==> s[i] in cut
  {
    if s != "" && s[|s| - 1] in cut {
      TrimRightPrefix(s[..|s| - 1], cut);
      var t := TrimRight(s, cut);
      forall i | |t| <= i < |s|
        ensures s[i] in cut
      {
        assert i < |s| - 1 ==> s[i] == s[..|s| - 1][i];
      }
    }
  }

  /** White_Space, as unicode.IsSpace has it. */
  const SPACE: set<char> :=
    {'\t', '\n', '\U{0B}', '\U{0C}', '\r', ' ', '\U{85}', '\U{A0}', '\U{1680}',
     '\U{2000}', '\U{2001}', '\U{2002}', '\U{2003}', '\U{2004}', '\U{2005}', '\U{2006}', '\U{2007}',
     '\U{2008}', '\U{2009}', '\U{200A}', '\U{2028}', '\U{2029}', '\U{202F}', '\U{205F}', '\U{3000}'}

  predicate Blank(s: string) {
    forall i :: 0 <= i < |s| ==> s[i] in SPACE
  }

  lemma {:induction false} TrimLeftBlank(s: string)
    ensures TrimLeft(s, SPACE) == "" <==> Blank(s)
  {
    if s != "" && s[0] in SPACE {
      TrimLeftBlank(s[1..]);
      if Blank(s[1..]) {
        forall i | 0 <= i < |s|
          ensures s[i] in SPACE
        {
          assert i > 0 ==> s[i] == s[1..][i - 1];
        }
      }
    }
  }

  /** A line has nothing left after trimming exactly when it is all white space. */
  lemma TrimBlank(s: string)
    ensures Trim(s, SPACE) == "" <==> Blank(s)
  {
    var t := TrimRight(s, SPACE);
    TrimRightPrefix(s, SPACE);
    TrimLeftBlank(t);
    if t != "" {
      assert t[|t| - 1] !in SPACE;
    }
  }

  /** The last position of c in s, or -1. */
  function LastIndex(s: string, c: char): (i: int)
    ensures -1 <= i < |s|
    ensures i >= 0 ==> s[i] == c
    ensures forall j :: i < j < |s| ==> s[j] != c
  {
    if s == "" then -1
    else if s[|s| - 1] == c then |s| - 1
    else
      assert forall j :: 0 <= j < |s| - 1 ==> s[..|s| - 1][j] == s[j];
      LastIndex(s[..|s| - 1], c)
  }

  /** A text whose last c is in front of b. */
  lemma LastIndexSplits(a: string, c: char, b: string)
    requires c !in b
    ensures var s := a + [c] + b; LastIndex(s, c) == |a| && s[..|a|] == a && s[|a| + 1..] == b
  {
    var s := a + [c] + b;
    assert s[|a|] == c && s[|a| + 1..] == b;
    forall j | |a| < j < |s|
      ensures s[j] != c
    {
      assert s[j] == b[j - |a| - 1];
    }
  }

  function Occurrences(s: string, c: char): nat {
    if s == "" then 0 else (if s[0] == c then 1 else 0) + Occurrences(s[1..], c)
  }

  lemma {:induction false} OccurrencesConcat(a: string, b: string, c: char)
    ensures Occurrences(a + b, c) == Occurrences(a, c) + Occurrences(b, c)
  {
    if a == "" {
      assert a + b == b;
    } else {
      OccurrencesConcat(a[1..], b, c);
      assert (a + b)[1..] == a[1..] + b;
    }
  }

  lemma {:induction false} OccurrencesNone(s: string, c: char)
    requires c !in s
    ensures Occurrences(s, c) == 0
  {
    if s != "" {
      OccurrencesNone(s[1..], c);
    }
  }

  // ---- Digits and numbers ------------------------------------------------------------------

  predicate IsDigit(c: char) {
    '0' <= c <= '9'
  }

  /** A digit to the base of sixteen; the first ten are the decimal ones. */
  function HexDigit(n: nat): (c: char)
    requires n < 16
    ensures n < 10 <==> IsDigit(c)
    ensures n < 10 ==> (c - '0') as nat == n
    ensures n >= 10 ==> 'a' <= c <= 'f' && (c - 'a') as nat + 10 == n
  {
    if n < 10 then (48 + n) as char else (87 + n) as char
  }

  /** A number in decimal. */
  function Decimal(n: nat): (s: string)
    ensures s != "" && forall i :: 0 <= i < |s| ==> IsDigit(s[i])
    ensures n > 0 ==> s[0] != '0'
    ensures n < 10 ==> |s| == 1
  {
    if n < 10 then [HexDigit(n)] else Decimal(n / 10) + [HexDigit(n % 10)]
  }

  /** The number a run of digits writes. */
  function ReadDecimal(s: string): nat {
    if s == "" then 0
    else 10 * ReadDecimal(s[..|s| - 1]) + if IsDigit(s[|s| - 1]) then (s[|s| - 1] - '0') as nat else 0
  }

  lemma {:induction false} DecimalReadsBack(n: nat)
    ensures ReadDecimal(Decimal(n)) == n
  {
    if n < 10 {
      assert Decimal(n)[..0] == "";
    } else {
      DecimalReadsBack(n / 10);
      assert Decimal(n)[..|Decimal(n)| - 1] == Decimal(n / 10);
    }
  }
}
