/**
 A small JSON codec for flat records of strings and numbers, with the string
 escaping of section 7 of RFC 8259. It shows that what module Console asks of
 its marshaller can be met, and exhibits the two odd kinds of line.
 Members come out in an arbitrary order that depends on the record alone.
 */
module JsonCodec {
  import opened Wrappers
  import opened Text
  import opened Console

  // ---- Strings ---------------------------------------------------------------

  function HexDigitOf(c: char): (n: Option<nat>)
    ensures n.Some? ==> n.value < 16
  {
    if '0' <= c <= '9' then Some((c - '0') as nat)
    else if 'a' <= c <= 'f' then Some((c - 'a') as nat + 10)
    else None
  }

  /** Quotes, backslashes and controls are escaped. */
  function Escape(c: char): string {
    if c == '"' then "\\\""
    else if c == '\\' then "\\\\"
    else if c < ' ' then "\\u00" + [HexDigit(c as nat / 16), HexDigit(c as nat % 16)]
    else [c]
  }

  /** A string without its opening quote, followed by rest. */
  function Quoted(s: string, rest: string): string {
    if s == "" then "\"" + rest else Escape(s[0]) + Quoted(s[1..], rest)
  }

  /** One possibly escaped character, and what follows it. */
  function Unescape(s: string): (r: Option<(char, string)>)
    ensures r.Some? ==> |r.value.1| < |s|
  {
    if s == "" then None
    else if s[0] != '\\' then Some((s[0], s[1..]))
    else if |s| >= 2 && s[1] in {'"', '\\'} then Some((s[1], s[2..]))
    else if |s| >= 6 && s[1..4] == "u00" then
      match (HexDigitOf(s[4]), HexDigitOf(s[5]))
      case (Some(h), Some(l)) => Some(((16 * h + l) as char, s[6..]))
      case _ => None
    else None
  }

  /** A string whose opening quote was read, and what follows its closing quote. */
  function Unquote(s: string): (r: Option<(string, string)>)
    ensures r.Some? ==> |r.value.1| < |s|
    decreases |s|
  {
    if s != "" && s[0] == '"' then Some(("", s[1..]))
    else
      match Unescape(s)
      case None => None
      case Some((c, more)) =>
        match Unquote(more)
        case None => None
        case Some((t, rest)) => Some(([c] + t, rest))
  }

  lemma EscapeRoundTrip(c: char, rest: string)
    ensures Unescape(Escape(c) + rest) == Some((c, rest))
    ensures (Escape(c) + rest)[0] != '"'
  {
    var s := Escape(c) + rest;
    if c == '"' || c == '\\' {
      assert s[2..] == rest;
    } else if c < ' ' {
      assert s[1..4] == "u00" && s[6..] == rest;
      assert HexDigitOf(s[4]) == Some(c as nat / 16) && HexDigitOf(s[5]) == Some(c as nat % 16);
    } else {
      assert s[1..] == rest;
    }
  }

  lemma {:induction false} QuoteRoundTrip(s: string, rest: string)
    ensures Unquote(Quoted(s, rest)) == Some((s, rest))
  {
    if s != "" {
      EscapeRoundTrip(s[0], Quoted(s[1..], rest));
      QuoteRoundTrip(s[1..], rest);
      assert [s[0]] + s[1..] == s;
    }
  }

  lemma EscapeOneLine(c: char)
    ensures '\n' !in Escape(c)
  {
  }

  lemma {:induction false} QuotedOneLine(s: string, rest: string)
    ensures '\n' !in rest ==> '\n' !in Quoted(s, rest)
    ensures Quoted(s, rest) != "" && Ends(Quoted(s, rest), rest)
  {
    hide Escape;
    if s != "" {
      EscapeOneLine(s[0]);
      QuotedOneLine(s[1..], rest);
    }
  }

  /** The two strings end in the same character. */
  predicate Ends(s: string, t: string) {
    t != "" ==> s != "" && s[|s| - 1] == t[|t| - 1]
  }

  // ---- Numbers ---------------------------------------------------------------

  /** A number in decimal, followed by rest. */
  function Digits(n: nat, rest: string): (s: string)
    ensures s != "" && IsDigit(s[0]) && ('\n' !in rest ==> '\n' !in s) && Ends(s, rest)
  {
    if n < 10 then [HexDigit(n)] + rest else Digits(n / 10, [HexDigit(n % 10)] + rest)
  }

  /** Reads digits onto n as long as there are any. */
  function Number(n: nat, s: string): (r: (nat, string))
    ensures |r.1| <= |s|
    decreases |s|
  {
    if s != "" && IsDigit(s[0]) then Number(10 * n + (s[0] - '0') as nat, s[1..]) else (n, s)
  }

  lemma NumberDigit(n: nat, d: nat, rest: string)
    requires d < 10
    ensures Number(n, [HexDigit(d)] + rest) == Number(10 * n + d, rest)
  {
    assert ([HexDigit(d)] + rest)[1..] == rest;
  }

  lemma {:induction false} DigitsRoundTrip(n: nat, rest: string)
    ensures Number(0, Digits(n, rest)) == Number(n, rest)
    decreases n
  {
    if n < 10 {
      NumberDigit(0, n, rest);
    } else {
      DigitsRoundTrip(n / 10, [HexDigit(n % 10)] + rest);
      NumberDigit(n / 10, n % 10, rest);
    }
  }

  // ---- Records ---------------------------------------------------------------

  function Value(v: Json, rest: string): string {
    match v
    case Str(s) => "\"" + Quoted(s, rest)
    case Other(n) => Digits(n, rest)
  }

  function ReadValue(s: string): (r: Option<(Json, string)>)
    ensures r.Some? ==> |r.value.1| < |s|
  {
    if s == "" then None
    else if s[0] == '"' then
      match Unquote(s[1..])
      case None => None
      case Some((t, rest)) => Some((Str(t), rest))
    else if IsDigit(s[0]) then
      var (n, rest) := Number((s[0] - '0') as nat, s[1..]);
      Some((Other(n), rest))
    else None
  }

  function Member(k: string, v: Json, rest: string): string {
    "\"" + Quoted(k, ":" + Value(v, rest))
  }

  function Separator(first: bool): string {
    if first then "" else ","
  }

  /** The members of a record after its opening brace, or after one of them. */
  ghost function Members(m: Record, first: bool): (s: string)
    ensures s != "" && s[0] in {'"', ',', '}'}
    decreases |m|
  {
    if m == map[] then "}"
    else
      var k :| k in m;
      Separator(first) + Member(k, m[k], Members(m - {k}, false))
  }

  ghost function Marshal(m: Record): string {
    "{" + Members(m, true)
  }

  function ReadMember(s: string): (r: Option<(string, Json, string)>)
    ensures r.Some? ==> |r.value.2| < |s|
  {
    if s == "" || s[0] != '"' then None
    else
      match Unquote(s[1..])
      case None => None
      case Some((k, more)) =>
        if more == "" || more[0] != ':' then None
        else
          match ReadValue(more[1..])
          case None => None
          case Some((v, rest)) => Some((k, v, rest))
  }

  /** Later members win, as they do in encoding/json. */
  function ReadMembers(s: string, first: bool): Option<(Record, string)>
    decreases |s|
  {
    if s == "" then None
    else if s[0] == '}' then Some((map[], s[1..]))
    else
      var start := if first then s else if s[0] == ',' then s[1..] else "";
      match ReadMember(start)
      case None => None
      case Some((k, v, more)) =>
        match ReadMembers(more, false)
        case None => None
        case Some((m, rest)) => Some((map[k := v] + m, rest))
  }

  const JSON_SPACE: set<char> := {' ', '\t', '\r', '\n'}

  function Unmarshal(s: string): Parsed {
    var t := Trim(s, JSON_SPACE);
    if t == "null" then Null
    else if t == "" || t[0] != '{' then Rejected(map[])
    else
      match ReadMembers(t[1..], true)
      case Some((m, "")) => Object(m)
      case _ => Rejected(map[])
  }

  lemma ValueRoundTrip(v: Json, rest: string)
    requires rest != "" && !IsDigit(rest[0])
    ensures ReadValue(Value(v, rest)) == Some((v, rest))
  {
    match v
    case Str(t) =>
      QuoteRoundTrip(t, rest);
      assert Value(v, rest)[1..] == Quoted(t, rest);
    case Other(n) =>
      var s := Digits(n, rest);
      DigitsRoundTrip(n, rest);
      assert Number(0, s) == Number((s[0] - '0') as nat, s[1..]);
  }

  lemma MemberRoundTrip(k: string, v: Json, rest: string)
    requires rest != "" && !IsDigit(rest[0])
    ensures ReadMember(Member(k, v, rest)) == Some((k, v, rest))
  {
    var more := ":" + Value(v, rest);
    QuoteRoundTrip(k, more);
    ValueRoundTrip(v, rest);
    assert Member(k, v, rest)[1..] == Quoted(k, more);
    assert more[1..] == Value(v, rest);
  }

  lemma MembersStep(k: string, v: Json, more: string, m: Record, first: bool)
    requires more != "" && !IsDigit(more[0]) && ReadMembers(more, false) == Some((m, ""))
    ensures ReadMembers(Separator(first) + Member(k, v, more), first) == Some((map[k := v] + m, ""))
  {
    hide Member, ReadMember;
    var s := Member(k, v, more);
    MemberStarts(k, v, more);
    MemberRoundTrip(k, v, more);
    assert "" + s == s && ("," + s)[1..] == s;
  }

  lemma MemberStarts(k: string, v: Json, more: string)
    ensures Member(k, v, more) != "" && Member(k, v, more)[0] == '"'
  {
  }

  /** The member that comes first. */
  lemma FirstMember(m: Record, first: bool) returns (k: string, more: string)
    requires m != map[]
    ensures k in m && more == Members(m - {k}, false)
    ensures Members(m, first) == Separator(first) + Member(k, m[k], more)
    ensures map[k := m[k]] + (m - {k}) == m && |m - {k}| < |m|
  {
    k :| k in m && Members(m, first) == Separator(first) + Member(k, m[k], Members(m - {k}, false));
    more := Members(m - {k}, false);
    assert map[k := m[k]] + (m - {k}) == m;
    assert (m - {k}).Keys == m.Keys - {k};
  }

  lemma {:induction false} MembersRoundTrip(m: Record, first: bool)
    ensures ReadMembers(Members(m, first), first) == Some((m, ""))
    decreases |m|
  {
    if m != map[] {
      var k, more := FirstMember(m, first);
      MembersRoundTrip(m - {k}, false);
      MembersStep(k, m[k], more, m - {k}, first);
    } else {
      assert "}"[1..] == "";
    }
  }

  lemma MemberOneLine(k: string, v: Json, rest: string)
    requires rest != "" && '\n' !in rest
    ensures '\n' !in Member(k, v, rest) && Ends(Member(k, v, rest), rest)
  {
    hide Quoted, Digits;
    if v.Str? {
      QuotedOneLine(v.text, rest);
    }
    QuotedOneLine(k, ":" + Value(v, rest));
  }

  lemma {:induction false} MembersOneLine(m: Record, first: bool)
    ensures '\n' !in Members(m, first) && Ends(Members(m, first), "}")
    decreases |m|
  {
    if m != map[] {
      var k, more := FirstMember(m, first);
      MembersOneLine(m - {k}, false);
      MemberOneLine(k, m[k], more);
    }
  }

  /** A marshalled record is one line, starts with a brace, and reads back as itself. */
  lemma MarshalRoundTrip(m: Record)
    ensures Unmarshal(Marshal(m)) == Object(m)
    ensures Marshal(m)[0] == '{' && '\n' !in Marshal(m)
  {
    var s := Marshal(m);
    MembersOneLine(m, true);
    MembersRoundTrip(m, true);
    BracedTrims(s);
    assert s[1..] == Members(m, true);
  }

  lemma BracedTrims(s: string)
    requires s != "" && s[0] == '{' && s[|s| - 1] == '}'
    ensures Trim(s, JSON_SPACE) == s && Trim(" " + s, JSON_SPACE) == s
  {
    var padded := " " + s;
    assert padded[|padded| - 1] == '}' && padded[1..] == s;
  }

  // ---- The demands of module Console are met -----------------------------------

  function LevelName(l: int): string {
    if l == -1 then "trace" else if l < 0 then "-" + Digits(-l, "") else Digits(l, "")
  }

  /** Level names here are decimal, but for trace. */
  function ParseLevel(s: string): Option<int> {
    var negative := s != "" && s[0] == '-';
    var digits := if negative then s[1..] else s;
    var (n, rest) := Number(0, digits);
    var l: int := if s == "trace" then -1 else if negative then 0 - n else n;
    if s == "trace" || (digits != "" && rest == "" && -128 <= l <= 127) then Some(l) else None
  }

  ghost function Environment(threshold: int): Env {
    Env(Unmarshal, Marshal, ParseLevel, LevelName, (s: string) => s, threshold)
  }

  lemma LevelRoundTrip(l: int)
    requires -128 <= l <= 127
    ensures ParseLevel(LevelName(l)) == Some(l)
  {
    if l < -1 {
      assert LevelName(l)[1..] == Digits(-l, "");
      DigitsRoundTrip(-l, "");
    } else if l >= 0 {
      DigitsRoundTrip(l, "");
    }
  }

  lemma EnvironmentIsFaithful(threshold: int)
    ensures FaithfulJson(Environment(threshold)) && FaithfulLevels(Environment(threshold))
  {
    var env := Environment(threshold);
    forall m: Record
      ensures env.unmarshal(env.marshal(m)) == Object(m)
      ensures '{' in env.marshal(m) && env.marshal(m)[0] == '{' && '\n' !in env.marshal(m)
    {
      MarshalRoundTrip(m);
    }
    forall l | -128 <= l <= 127
      ensures env.parseLevel(env.levelName(l)) == Some(l)
    {
      LevelRoundTrip(l);
    }
  }

  /** A line that is just null stops the call. */
  lemma NullLinePanics(cfg: Config, now: string, threshold: int, failing: nat -> bool, f: Feed)
    ensures WriteEffect(Environment(threshold), cfg, now, "null", SinkDown(failing), f) == (f, Crashed(0))
  {
    var env := Environment(threshold);
    SplitWhole("null", '\n');
    assert "null"[0] !in SPACE;
    TrimBlank("null");
    assert Trim("null", JSON_SPACE) == "null";
    RunOne(LineHandler(env, cfg, now, SinkDown(failing)), "null", f, 0);
  }

  /** A blank in front of an object changes nothing for the decoder, so the line is one PaddedObject speaks of. */
  lemma PaddedObjectDecodes(m: Record)
    ensures Unmarshal(" " + Marshal(m)) == Object(m)
  {
    var s := Marshal(m);
    MarshalRoundTrip(m);
    MembersOneLine(m, true);
    BracedTrims(s);
  }
}
