/**
 The prefixing writer of log.go, on a heap of Go slices: append writes behind
 the length of a slice when there is capacity left, and allocates otherwise.
 */
module Prefix {
  import opened Text

  // ---- What one call hands down ---------------------------------------------

  const CRLF: set<char> := {'\r', '\n'}

  function ReplaceAll(t: string, c: char, sub: string): string {
    if t == "" then "" else (if t[0] == c then sub else [t[0]]) + ReplaceAll(t[1..], c, sub)
  }

  /** The inner append: the trimmed buffer with the prefix after every newline, and a newline. */
  function Body(prefix: string, buf: string): string {
    ReplaceAll(TrimRight(buf, CRLF), '\n', "\n" + prefix) + "\n"
  }

  /** The text one Write call builds from a buffer. */
  function Prefixed(prefix: string, buf: string): string {
    prefix + Body(prefix, buf)
  }

  /** Every line with the prefix before it and a newline after it. */
  function PrefixLines(prefix: string, lines: seq<string>): string {
    if lines == [] then "" else prefix + lines[0] + "\n" + PrefixLines(prefix, lines[1..])
  }

  lemma AfterNewline(prefix: string, r: string, head: string, tail: string)
    requires r + "\n" == head + "\n" + tail
    ensures "\n" + prefix + r + "\n" == "" + "\n" + (prefix + head + "\n" + tail)
  {
    assert "\n" + prefix + r + "\n" == "\n" + prefix + (r + "\n");
    assert "\n" + prefix + (head + "\n" + tail) == "" + "\n" + (prefix + head + "\n" + tail);
  }

  lemma AfterOther(c: char, r: string, head: string, tail: string)
    requires r + "\n" == head + "\n" + tail
    ensures [c] + r + "\n" == ([c] + head) + "\n" + tail
  {
    assert [c] + r + "\n" == [c] + (r + "\n");
    assert [c] + (head + "\n" + tail) == ([c] + head) + "\n" + tail;
  }

  lemma {:induction false} ReplaceIsPrefixLines(prefix: string, t: string)
    ensures var lines := Split(t, '\n');
            ReplaceAll(t, '\n', "\n" + prefix) + "\n" == lines[0] + "\n" + PrefixLines(prefix, lines[1..])
  {
    if t != "" {
      ReplaceIsPrefixLines(prefix, t[1..]);
      var rest, r := Split(t[1..], '\n'), ReplaceAll(t[1..], '\n', "\n" + prefix);
      var tail := PrefixLines(prefix, rest[1..]);
      if t[0] == '\n' {
        assert Split(t, '\n')[1..] == rest;
        AfterNewline(prefix, r, rest[0], tail);
      } else {
        assert Split(t, '\n')[1..] == rest[1..];
        AfterOther(t[0], r, rest[0], tail);
      }
    }
  }

  /** One call hands down prefix, line and newline for each line of the right-trimmed buffer. */
  lemma PrefixedIsPerLine(prefix: string, buf: string)
    ensures Prefixed(prefix, buf) == PrefixLines(prefix, Split(TrimRight(buf, CRLF), '\n'))
  {
    var t := TrimRight(buf, CRLF);
    var lines := Split(t, '\n');
    ReplaceIsPrefixLines(prefix, t);
    assert prefix + (lines[0] + "\n" + PrefixLines(prefix, lines[1..])) == PrefixLines(prefix, lines);
  }

  function WithPrefix(prefix: string, lines: seq<string>): seq<string> {
    seq(|lines|, i requires 0 <= i < |lines| => prefix + lines[i])
  }

  /** The pieces of text with the first n characters of each removed. */
  function Strip(n: nat, lines: seq<string>): seq<string>
    requires forall i :: 0 <= i < |lines| ==> n <= |lines[i]|
  {
    seq(|lines|, i requires 0 <= i < |lines| => lines[i][n..])
  }

  lemma PrefixFirst(prefix: string, lines: seq<string>)
    requires lines != []
    ensures PrefixLines(prefix, lines) == prefix + lines[0] + ['\n'] + PrefixLines(prefix, lines[1..])
    ensures WithPrefix(prefix, lines) == [prefix + lines[0]] + WithPrefix(prefix, lines[1..])
  {
  }

  lemma {:induction false} SplitPrefixLines(prefix: string, lines: seq<string>)
    requires '\n' !in prefix && forall i :: 0 <= i < |lines| ==> '\n' !in lines[i]
    ensures Split(PrefixLines(prefix, lines), '\n') == WithPrefix(prefix, lines) + [""]
  {
    if lines == [] {
      SplitWhole("", '\n');
    } else {
      hide Split, WithPrefix;
      PrefixFirst(prefix, lines);
      SplitWhole(prefix + lines[0], '\n');
      SplitConcat(prefix + lines[0], '\n', PrefixLines(prefix, lines[1..]));
      SplitPrefixLines(prefix, lines[1..]);
    }
  }

  /**
   Prefixing loses nothing but the trailing line ends: splitting the output and
   stripping the prefix from every line but the empty last gives them back.
   */
  lemma PrefixRoundTrip(prefix: string, buf: string)
    requires '\n' !in prefix
    ensures var pieces := Split(Prefixed(prefix, buf), '\n');
            var lines := pieces[..|pieces| - 1];
            && pieces[|pieces| - 1] == ""
            && (forall i :: 0 <= i < |lines| ==> prefix <= lines[i])
            && Join(Strip(|prefix|, lines), '\n') == TrimRight(buf, CRLF)
  {
    var t := TrimRight(buf, CRLF);
    var lines := Split(t, '\n');
    PrefixedIsPerLine(prefix, buf);
    SplitFree(t, '\n');
    SplitPrefixLines(prefix, lines);
    var pieces := Split(Prefixed(prefix, buf), '\n');
    assert pieces[..|pieces| - 1] == WithPrefix(prefix, lines);
    assert Strip(|prefix|, WithPrefix(prefix, lines)) == lines;
    JoinSplit(t, '\n');
  }

  /** The text logWriter hands to its log function. */
  function Logged(buf: string): string {
    TrimRight(buf, {'\n'}) + "\n"
  }

  lemma {:induction false} ReplaceEnds(t: string, sub: string)
    requires t != "" && t[|t| - 1] != '\n'
    ensures var r := ReplaceAll(t, '\n', sub); r != "" && r[|r| - 1] == t[|t| - 1]
  {
    if |t| > 1 {
      ReplaceEnds(t[1..], sub);
    }
  }

  /** logWriter passes what a prefixing writer produces on unchanged. */
  lemma LoggedPrefixed(prefix: string, buf: string)
    requires '\n' !in prefix
    ensures Logged(Prefixed(prefix, buf)) == Prefixed(prefix, buf)
  {
    var t := TrimRight(buf, CRLF);
    TrimRightPrefix(buf, CRLF);
    var body := prefix + ReplaceAll(t, '\n', "\n" + prefix);
    if t != "" {
      ReplaceEnds(t, "\n" + prefix);
    }
    assert body == "" || body[|body| - 1] != '\n';
    assert (body + "\n")[..|body|] == body && Prefixed(prefix, buf) == body + "\n";
    assert TrimRight(body + "\n", {'\n'}) == TrimRight(body, {'\n'}) == body;
  }

  lemma {:induction false} ReplaceLength(t: string, sub: string)
    ensures |ReplaceAll(t, '\n', sub)| == |t| + Occurrences(t, '\n') * (|sub| - 1)
  {
    if t != "" {
      ReplaceLength(t[1..], sub);
      var n := Occurrences(t[1..], '\n');
      assert (1 + n) * (|sub| - 1) == (|sub| - 1) + n * (|sub| - 1);
    }
  }

  /** The count a call returns: that of the text handed down. */
  function Returned(prefix: string, buf: string): nat {
    |Prefixed(prefix, buf)|
  }

  /** What is put in: a prefix for each line, and a newline. */
  function Added(prefix: string, t: string): int {
    (Occurrences(t, '\n') + 1) * |prefix| + 1
  }

  lemma CountIs(prefix: string, buf: string)
    ensures var t := TrimRight(buf, CRLF);
            Returned(prefix, buf) == |t| + Added(prefix, t)
  {
    hide TrimRight, ReplaceAll, Occurrences;
    var t := TrimRight(buf, CRLF);
    ReplaceLength(t, "\n" + prefix);
    assert |"\n" + prefix| - 1 == |prefix|;
    OneMoreTime(Occurrences(t, '\n'), |prefix|);
  }

  lemma OneMoreTime(n: nat, m: nat)
    ensures (n + 1) * m == n * m + m
  {
  }

  /**
   The count is the length of the buffer, as io.Writer asks of a full write,
   exactly when the line ends trimmed off make up for the prefixes and the
   newline put in. A buffer with no line end to trim always gets more than its
   length.
   */
  lemma ReturnedCount(prefix: string, buf: string)
    ensures var t := TrimRight(buf, CRLF);
            && Returned(prefix, buf) == |t| + Added(prefix, t)
            && (Returned(prefix, buf) == |buf| <==> |buf| - |t| == Added(prefix, t))
            && (Returned(prefix, buf) > |buf| <==> |buf| - |t| < Added(prefix, t))
    ensures buf == "" || buf[|buf| - 1] !in CRLF ==> Returned(prefix, buf) > |buf|
  {
    CountIs(prefix, buf);
    hide Returned, Occurrences;
    NotNegative(Occurrences(TrimRight(buf, CRLF), '\n') + 1, |prefix|);
  }

  lemma NotNegative(m: nat, n: nat)
    ensures m * n >= 0
  {
  }

  /** One line with its newline gets its length only from an empty prefix. */
  lemma LineCount(prefix: string, line: string)
    requires '\n' !in line && (line == "" || line[|line| - 1] !in CRLF)
    ensures Returned(prefix, line + "\n") == |line + "\n"| + |prefix|
  {
    var buf := line + "\n";
    assert buf[..|line|] == line;
    assert TrimRight(buf, CRLF) == TrimRight(line, CRLF) == line;
    ReturnedCount(prefix, buf);
    OccurrencesNone(line, '\n');
  }

  // ---- One text written over another ------------------------------------------

  /** The second text over the start of the first. */
  function Overlaid(a: string, b: string): (r: string)
    ensures |r| == |a|
  {
    if |a| <= |b| then b[..|a|] else b + a[|b|..]
  }

  /** That leaves the first as it was exactly when the two agree as far as both go. */
  lemma OverlaidKeeps(a: string, b: string)
    ensures Overlaid(a, b) == a <==> forall i :: 0 <= i < |a| && i < |b| ==> a[i] == b[i]
  {
    if forall i :: 0 <= i < |a| && i < |b| ==> a[i] == b[i] {
      assert Overlaid(a, b) == a;
    } else {
      var i :| 0 <= i < |a| && i < |b| && a[i] != b[i];
      assert Overlaid(a, b)[i] == b[i];
    }
  }

  /** The same of a text in an array, behind another one. */
  lemma OverlaidIs(before: string, now: string, start: nat, at: nat, head: string, a: string, b: string)
    requires start <= at <= |before| == |now| && at + |a| <= |before| && at + |b| <= |before| && |head| == at - start
    requires before[start..at + |a|] == head + a && now[at..at + |b|] == b
    requires forall i :: 0 <= i < |before| && !(at <= i < at + |b|) ==> now[i] == before[i]
    ensures now[start..at + |a|] == head + Overlaid(a, b)
  {
    var all := before[start..at + |a|];
    forall i | start <= i < at + |a|
      ensures now[i] == (head + Overlaid(a, b))[i - start]
    {
      assert before[i] == all[i - start];
      if at <= i < at + |b| {
        assert now[i] == now[at..at + |b|][i - at];
      }
    }
  }

  // ---- Slices ----------------------------------------------------------------

  /** A Go slice: a window of an array, and how far append may write behind it. */
  datatype Slice = Slice(data: array<char>, offset: nat, length: nat, capacity: nat)
  {
    predicate Valid() {
      length <= capacity && offset + capacity <= data.Length
    }

    function Contents(): string
      requires Valid()
      reads data
    {
      data[offset..offset + length]
    }
  }

  /** A fresh slice holding text, with any spare capacity the allocator leaves. */
  method Allocate(text: string, spare: nat) returns (r: Slice)
    ensures r.Valid() && fresh(r.data) && r.Contents() == text
    ensures r.offset == 0 && r.capacity == |text| + spare
  {
    var data := new char[|text| + spare](i requires 0 <= i => if i < |text| then text[i] else ' ');
    r := Slice(data, 0, |text|, |text| + spare);
    assert r.Contents() == text;
  }

  /**
   append(s, t...): in place when the capacity behind s allows it, otherwise in
   a fresh array. What lies outside the appended window is not touched.
   */
  method Append(s: Slice, t: Slice, spare: nat) returns (r: Slice)
    requires s.Valid() && t.Valid()
    modifies s.data
    ensures r.Valid() && r.Contents() == old(s.Contents()) + old(t.Contents())
    ensures s.Contents() == old(s.Contents())
    ensures s.length + t.length <= s.capacity
            ==> r == s.(length := s.length + t.length)
    ensures s.length + t.length > s.capacity
            ==> fresh(r.data) && s.data[..] == old(s.data[..])
    ensures forall i :: 0 <= i < s.data.Length && !(s.offset + s.length <= i < s.offset + s.length + t.length)
                   ==> s.data[i] == old(s.data[i])
  {
    if s.length + t.length <= s.capacity {
      var at := s.offset + s.length;
      forall i | 0 <= i < t.length {
        s.data[at + i] := t.data[t.offset + i];
      }
      r := s.(length := s.length + t.length);
      assert s.Contents() == old(s.Contents());
      assert r.Contents() == old(s.Contents()) + old(t.Contents());
    } else {
      r := Allocate(s.Contents() + t.Contents(), spare);
    }
  }

  /** bytes.TrimRight: a shorter window of the same array. */
  method TrimSlice(s: Slice) returns (r: Slice)
    requires s.Valid()
    ensures r.Valid() && r == s.(length := r.length) && r.Contents() == TrimRight(s.Contents(), CRLF)
  {
    var t := TrimRight(s.Contents(), CRLF);
    TrimRightPrefix(s.Contents(), CRLF);
    r := s.(length := |t|);
    Shortened(s, |t|);
  }

  lemma Shortened(s: Slice, n: nat)
    requires s.Valid() && n <= s.length
    ensures s.(length := n).Valid() && s.(length := n).Contents() == s.Contents()[..n]
  {
    var r := s.(length := n);
    assert |r.Contents()| == n;
    forall i | 0 <= i < n
      ensures r.Contents()[i] == s.Contents()[i]
    {
      assert r.Contents()[i] == s.data[s.offset + i];
    }
  }

  /** bytes.ReplaceAll of newlines: always a copy. */
  method ReplaceNewlines(s: Slice, sub: Slice, spare: nat) returns (r: Slice)
    requires s.Valid() && sub.Valid()
    ensures r.Valid() && fresh(r.data) && r.Contents() == ReplaceAll(s.Contents(), '\n', sub.Contents())
  {
    r := Allocate(ReplaceAll(s.Contents(), '\n', sub.Contents()), spare);
  }

  /** The writer below: it keeps copies of what it is given, as io.Writer requires. */
  class Sink {
    var received: seq<string>

    method Write(buf: Slice) returns (n: nat)
      requires buf.Valid()
      modifies this
      ensures received == old(received) + [buf.Contents()] && n == buf.length
    {
      received := received + [buf.Contents()];
      n := buf.length;
    }
  }

  class PrefixedWriter {
    const w: Sink
    const prefix: Slice
    ghost const text: string

    /** The prefix slice still holds the prefix it was made with. */
    ghost predicate Valid()
      reads prefix.data
    {
      prefix.Valid() && prefix.Contents() == text
    }

    constructor (w: Sink, prefix: string, spare: nat)
      ensures Valid() && fresh(this.prefix.data) && this.w == w && text == prefix
    {
      var p := Allocate(prefix, spare);
      this.w, this.prefix, text := w, p, prefix;
    }

    /** The inner append of Write, in a fresh array. */
    method BuildBody(buf: Slice, spare1: nat, spare2: nat, spare3: nat) returns (body: Slice)
      requires Valid() && buf.Valid()
      ensures body.Valid() && fresh(body.data) && body.Contents() == Body(text, buf.Contents())
    {
      var newline := Allocate("\n", 0);
      var separator := Append(newline, prefix, spare1);
      var trimmed := TrimSlice(buf);
      var replaced := ReplaceNewlines(trimmed, separator, spare2);
      var end := Allocate("\n", 0);
      body := Append(replaced, end, spare3);
    }

    /**
     One call, with every allocation free to leave spare capacity. Whether or
     not the last append reuses the room behind the prefix slice, the prefix and
     the caller's buffer keep their contents.
     */
    method Write(buf: Slice, spare1: nat, spare2: nat, spare3: nat, spare4: nat) returns (n: nat)
      requires Valid() && buf.Valid() && buf.data != prefix.data
      modifies w, prefix.data
      ensures Valid() && buf.data[..] == old(buf.data[..])
      ensures w.received == old(w.received) + [Prefixed(text, buf.Contents())]
      ensures n == Returned(text, buf.Contents())
    {
      var body := BuildBody(buf, spare1, spare2, spare3);
      var out := AppendBody(body, spare4);
      n := w.Write(out);
    }

    /** A body of this length goes behind the prefix without a new array. */
    predicate Fits(n: nat) {
      prefix.length + n <= prefix.capacity
    }

    /** The append of Write: behind the prefix when the body fits there, in an array of its own otherwise. */
    method AppendBody(body: Slice, spare: nat) returns (out: Slice)
      requires Valid() && body.Valid() && body.data != prefix.data
      modifies prefix.data
      ensures Valid() && out.Valid() && out.Contents() == text + body.Contents()
      ensures !Fits(body.length) ==> fresh(out.data) && prefix.data[..] == old(prefix.data[..])
      ensures Fits(body.length) ==>
                && out == prefix.(length := prefix.length + body.length)
                && var at := prefix.offset + prefix.length;
                && prefix.data[at..at + body.length] == body.Contents()
                && prefix.data[prefix.offset..at + body.length] == text + body.Contents()
                && forall i :: 0 <= i < prefix.data.Length && !(at <= i < at + body.length)
                     ==> prefix.data[i] == old(prefix.data[i])
    {
      out := Append(prefix, body, spare);
      if Fits(body.length) {
        var at := prefix.offset + prefix.length;
        assert prefix.data[at..at + body.length] == out.Contents()[prefix.length..];
        assert prefix.data[prefix.offset..at + body.length] == out.Contents();
      }
    }

    /** What the first slice holds once the second body has been appended too. */
    lemma Both(before: string, a: string, b: string, out1: Slice)
      requires Valid() && |before| == prefix.data.Length && out1.Valid()
      requires !Fits(|a|) ==> out1.Contents() == text + a
      requires Fits(|a|) ==>
                 && out1 == prefix.(length := prefix.length + |a|)
                 && before[prefix.offset..prefix.offset + prefix.length + |a|] == text + a
      requires !Fits(|b|) ==> prefix.data[..] == before
      requires Fits(|b|) ==>
                 && var at := prefix.offset + prefix.length;
                 && prefix.data[at..at + |b|] == b
                 && forall i :: 0 <= i < |before| && !(at <= i < at + |b|) ==> prefix.data[i] == before[i]
      ensures out1.Contents() == text + if Fits(|a|) && Fits(|b|) then Overlaid(a, b) else a
    {
      if Fits(|a|) {
        var start, at, now := prefix.offset, prefix.offset + prefix.length, prefix.data[..];
        assert out1.Contents() == now[start..at + |a|];
        if Fits(|b|) {
          OverlaidIs(before, now, start, at, text, a, b);
        }
      }
    }

    /** A slice that an append of a body has given. */
    ghost predicate Appended(out: Slice, body: string)
      reads out.data
    {
      && out.Valid() && out.Contents() == text + body
      && if Fits(|body|) then out == prefix.(length := prefix.length + |body|) else out.data != prefix.data
    }

    /** A second append while the slice of the first is still to be used. */
    method AppendOver(b: Slice, spare: nat, ghost out1: Slice, ghost a: string) returns (out2: Slice)
      requires Valid() && b.Valid() && b.data != prefix.data && Appended(out1, a)
      modifies prefix.data
      ensures Valid() && out1.Valid() && out2.Valid() && out2.Contents() == text + old(b.Contents())
      ensures out1.Contents() == text + if Fits(|a|) && Fits(b.length) then Overlaid(a, old(b.Contents())) else a
    {
      ghost var before := prefix.data[..];
      out2 := AppendBody(b, spare);
      assert out1.data != prefix.data ==> out1.Contents() == text + a;
      Both(before, a, b.Contents(), out1);
    }

    /** Two appends before either text is used. */
    method AppendBoth(a: Slice, b: Slice, spare: nat) returns (out1: Slice, out2: Slice)
      requires Valid() && a.Valid() && b.Valid() && a.data != prefix.data && b.data != prefix.data
      modifies prefix.data
      ensures Valid() && out1.Valid() && out2.Valid()
      ensures out2.Contents() == text + b.Contents()
      ensures out1.Contents()
           == text + if Fits(a.length) && Fits(b.length) then Overlaid(a.Contents(), b.Contents()) else a.Contents()
    {
      hide Overlaid;
      out1 := AppendBody(a, spare);
      assert a.Contents() == old(a.Contents()) && b.Contents() == old(b.Contents());
      out2 := AppendOver(b, spare, out1, a.Contents());
    }

    /**
     Two calls that overlap, as those of two handlers that share the writer may:
     both append before either writes. The second text is as it should be. The
     first is too, unless both bodies fit behind the prefix; then it has the
     second body's characters where that reaches.
     */
    method WriteBoth(first: Slice, second: Slice, spare: nat)
      requires Valid() && first.Valid() && second.Valid()
      requires first.data != prefix.data && second.data != prefix.data
      modifies w, prefix.data
      ensures Valid() && first.data[..] == old(first.data[..]) && second.data[..] == old(second.data[..])
      ensures var a, b := Body(text, first.Contents()), Body(text, second.Contents());
              w.received == old(w.received) + [text + if Fits(|a|) && Fits(|b|) then Overlaid(a, b) else a,
                                               Prefixed(text, second.Contents())]
    {
      hide Body, Overlaid, Fits;
      var a := BuildBody(first, spare, spare, spare);
      var b := BuildBody(second, spare, spare, spare);
      var out1, out2 := AppendBoth(a, b, spare);
      var n := w.Write(out1);
      n := w.Write(out2);
    }
  }
}
