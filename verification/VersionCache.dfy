/**
 NakamaVersion of ctx.go: a cache file with a time to live in front of the
 version selection, and its behaviour over any sequence of calls.
 */
module VersionCache {
  import opened Wrappers
  import opened Text
  import opened Semver

  /** What is at the cache file's path. */
  datatype Entry = Absent | Directory | File(content: string, mtime: int)

  datatype Error = CacheDir | NakamaTags | NoNakamaTags | PluginbuilderTags | NoMatch | Write

  /**
   One call: its context, the answers of everything it asks outside, and its
   clock at the age test and at the write.
   */
  datatype Call = Call(
    pinned: string,                // the version set on the context, or empty
    cacheDir: bool,                // the cache directory exists or was made
    ttl: int,
    now: int,
    readable: bool,                // reading a fresh file succeeds
    nk: Option<seq<string>>,       // the nakama tags, or a failed request
    pb: Option<seq<string>>,
    writable: bool,
    writtenAt: int)

  /** ReadCachedFile of runner.go: a directory, a file past its time to live and a failed read are errors. */
  function ReadCached(entry: Entry, c: Call): Option<string> {
    if entry.File? && !(entry.mtime + c.ttl < c.now) && c.readable then Some(entry.content) else None
  }

  /** The answer, and what is at the path afterwards; a failed write leaves the old entry. */
  ghost function Effect(entry: Entry, c: Call): (Entry, Result<string, Error>) {
    if c.pinned != "" then (entry, Ok(c.pinned))
    else if !c.cacheDir then (entry, Err(CacheDir))
    else if ReadCached(entry, c).Some? then (entry, Ok(Trim(ReadCached(entry, c).value, SPACE)))
    else if c.nk.None? then (entry, Err(NakamaTags))
    else if c.nk.value == [] then (entry, Err(NoNakamaTags))
    else if c.pb.None? then (entry, Err(PluginbuilderTags))
    else
      match Selection(c.nk.value, c.pb.value)
      case None => (entry, Err(NoMatch))
      case Some(v) =>
        if c.writable && !entry.Directory? then (File(v + "\n", c.writtenAt), Ok(v)) else (entry, Err(Write))
  }

  class Host {
    var entry: Entry

    method WriteFile(content: string, c: Call) returns (ok: bool)
      modifies this
      ensures ok <==> c.writable && !old(entry).Directory?
      ensures entry == if ok then File(content, c.writtenAt) else old(entry)
    {
      ok := c.writable && !entry.Directory?;
      if ok { entry := File(content, c.writtenAt); }
    }

    method NakamaVersion(c: Call) returns (r: Result<string, Error>)
      modifies this
      ensures (entry, r) == Effect(old(entry), c)
    {
      if c.pinned != "" { return Ok(c.pinned); }
      if !c.cacheDir { return Err(CacheDir); }
      var cached := ReadCached(entry, c);
      if cached.Some? { return Ok(Trim(cached.value, SPACE)); }
      if c.nk.None? { return Err(NakamaTags); }
      if |c.nk.value| == 0 { return Err(NoNakamaTags); }
      if c.pb.None? { return Err(PluginbuilderTags); }
      var v := Select(c.nk.value, c.pb.value);
      if v.None? {
        NoneCommon(c.nk.value, c.pb.value);
        return Err(NoMatch);
      }
      GreatestUnique(c.nk.value, c.pb.value, v.value);
      var ok := WriteFile(v.value + "\n", c);
      if !ok { return Err(Write); }
      return Ok(v.value);
    }
  }

  /** A call that got as far as asking the registry and writing the file. */
  ghost predicate Refreshes(entry: Entry, c: Call) {
    && c.pinned == "" && c.cacheDir && ReadCached(entry, c).None?
    && c.nk.Some? && c.pb.Some? && c.writable && !entry.Directory?
    && Selection(c.nk.value, c.pb.value).Some?
  }

  /**
   With the registry answering and the file writable, a call that finds no
   fresh copy fails exactly when the lists have no version tag in common.
   */
  lemma RefreshFailsIffNoCommon(entry: Entry, c: Call)
    requires c.pinned == "" && c.cacheDir && ReadCached(entry, c).None?
    requires c.nk.Some? && c.pb.Some? && c.writable && !entry.Directory?
    ensures Effect(entry, c).1.Err? <==> forall t :: !Common(c.nk.value, c.pb.value, t)
    ensures Effect(entry, c).1.Ok? ==> Greatest(c.nk.value, c.pb.value, Effect(entry, c).1.value)
    ensures Effect(entry, c).1.Ok? <==> Refreshes(entry, c)
  {
    var nk, pb := c.nk.value, c.pb.value;
    if exists t :: Common(nk, pb, t) {
      var t :| Common(nk, pb, t);
      GreatestExists(nk, pb, t);
    }
  }

  /**
   The last error arises exactly when both lists were fetched, the nakama one is
   not empty, and no version tag is in both.
   */
  lemma NoMatchIff(entry: Entry, c: Call)
    ensures Effect(entry, c).1 == Err(NoMatch)
       <==> && c.pinned == "" && c.cacheDir && ReadCached(entry, c).None?
            && c.nk.Some? && c.nk.value != [] && c.pb.Some?
            && forall t :: !Common(c.nk.value, c.pb.value, t)
  {
    if c.nk.Some? && c.pb.Some? && exists t :: Common(c.nk.value, c.pb.value, t) {
      var t :| Common(c.nk.value, c.pb.value, t);
      GreatestExists(c.nk.value, c.pb.value, t);
    }
  }

  /** An empty pluginbuilder list ends there, while an empty nakama list has an error of its own. */
  lemma EmptyListErrors(entry: Entry, c: Call)
    requires c.pinned == "" && c.cacheDir && ReadCached(entry, c).None? && c.nk.Some?
    ensures c.nk.value != [] && c.pb == Some([]) ==> Effect(entry, c) == (entry, Err(NoMatch))
    ensures Effect(entry, c).1 == Err(NoNakamaTags) <==> c.nk.value == []
  {
    if c.pb == Some([]) {
      assert forall t :: !Common(c.nk.value, c.pb.value, t);
      NoMatchIff(entry, c);
    }
  }

  /** The file holds a copy that can be used: not past its time to live, and readable. */
  predicate Fresh(entry: Entry, c: Call) {
    entry.File? && c.now - entry.mtime <= c.ttl && c.readable
  }

  /** A version set on the context answers itself, and otherwise a fresh copy does, whatever the registry says. */
  lemma FreshAnswers(entry: Entry, c: Call)
    ensures c.pinned != "" ==> Effect(entry, c) == (entry, Ok(c.pinned))
    ensures c.pinned == "" && c.cacheDir && Fresh(entry, c)
            ==> Effect(entry, c) == (entry, Ok(Trim(entry.content, SPACE)))
  {
  }

  /** Each error arises exactly where it should, and only then; what is at the path is left as it was. */
  lemma ErrorsExact(entry: Entry, c: Call)
    ensures var asks := c.pinned == "" && c.cacheDir && !Fresh(entry, c);
            var e := Effect(entry, c).1;
            && (e == Err(CacheDir) <==> c.pinned == "" && !c.cacheDir)
            && (e == Err(NakamaTags) <==> asks && c.nk.None?)
            && (e == Err(NoNakamaTags) <==> asks && c.nk == Some([]))
            && (e == Err(PluginbuilderTags) <==> asks && c.nk.Some? && c.nk.value != [] && c.pb.None?)
            && (e == Err(Write) <==> && asks && c.nk.Some? && c.pb.Some? && (!c.writable || entry.Directory?)
                                     && exists t :: Common(c.nk.value, c.pb.value, t))
            && (e.Err? ==> Effect(entry, c).0 == entry)
  {
    if c.nk.Some? && c.pb.Some? && exists t :: Common(c.nk.value, c.pb.value, t) {
      var t :| Common(c.nk.value, c.pb.value, t);
      GreatestExists(c.nk.value, c.pb.value, t);
      assert t in c.nk.value;
    }
  }

  /** Among finitely many tags a common one means a greatest one. */
  lemma {:induction false} GreatestExists(nk: seq<string>, pb: seq<string>, t: string)
    requires Common(nk, pb, t)
    ensures exists r :: Greatest(nk, pb, r)
    decreases |nk|
  {
    var rest, last := nk[..|nk| - 1], nk[|nk| - 1];
    assert nk == rest + [last];
    if exists c :: Common(rest, pb, c) {
      var c :| Common(rest, pb, c);
      GreatestExists(rest, pb, c);
      var r :| Greatest(rest, pb, r);
      if Common(nk, pb, last) && Less(r, last) {
        forall c | Common(nk, pb, c)
          ensures c == last || Less(c, last)
        {
          LessIsStrictTotal(c, r, last);
        }
        assert Greatest(nk, pb, last);
      } else {
        forall c | Common(nk, pb, c)
          ensures c == r || Less(c, r)
        {
          LessIsStrictTotal(c, r, c);
        }
        assert Greatest(nk, pb, r);
      }
    } else {
      forall c | Common(nk, pb, c)
        ensures c == last
      {
        assert c in rest ==> Common(rest, pb, c);
      }
      assert Greatest(nk, pb, last);
    }
  }

  // ---- The newline and the trim --------------------------------------------------

  lemma TagCharacters(s: string)
    requires IsTag(s)
    ensures s != "" && s[0] !in SPACE && s[|s| - 1] !in SPACE
  {
    var p := Split(s, '.');
    JoinSplit(s, '.');
    JoinThree(p[0], p[1], p[2], '.');
    assert p == [p[0], p[1], p[2]];
    NumberEnds(p[0]);
    NumberEnds(p[2]);
    hide IsTag, Split, Join, IsNumber;
    assert s[0] == p[0][0];
    assert s[|s| - 1] == p[2][|p[2]| - 1];
  }

  lemma NumberEnds(s: string)
    requires IsNumber(s)
    ensures s != "" && s[0] !in SPACE && s[|s| - 1] !in SPACE
  {
    assert IsDigit(s[0]) && IsDigit(s[|s| - 1]);
  }

  /** What is written with a newline and read back trimmed is what was selected. */
  lemma CachedTextRoundTrip(v: string)
    requires IsTag(v)
    ensures Trim(v + "\n", SPACE) == v
  {
    TagCharacters(v);
    assert (v + "\n")[..|v|] == v;
    assert TrimRight(v + "\n", SPACE) == TrimRight(v, SPACE) == v;
  }

  // ---- Runs ----------------------------------------------------------------------

  /** What is at the path after the first n calls. */
  ghost function EntryAfter(calls: seq<Call>, n: nat): Entry
    requires n <= |calls|
  {
    if n == 0 then Absent else Effect(EntryAfter(calls, n - 1), calls[n - 1]).0
  }

  /** The clock does not go back, within a call or from one to the next. */
  ghost predicate Orderly(calls: seq<Call>) {
    && (forall i :: 0 <= i < |calls| ==> calls[i].now <= calls[i].writtenAt)
    && (forall i, j :: 0 <= i < j < |calls| ==> calls[i].writtenAt <= calls[j].now)
  }

  ghost predicate WroteAt(calls: seq<Call>, i: nat, v: string)
    requires i < |calls|
  {
    && Refreshes(EntryAfter(calls, i), calls[i])
    && Selection(calls[i].nk.value, calls[i].pb.value) == Some(v)
  }

  /** Only a refreshing call changes the file, and it writes what it selected. */
  lemma EntryStep(calls: seq<Call>, n: nat)
    requires n < |calls| && !EntryAfter(calls, n).Directory?
    ensures !Refreshes(EntryAfter(calls, n), calls[n]) ==> EntryAfter(calls, n + 1) == EntryAfter(calls, n)
    ensures Refreshes(EntryAfter(calls, n), calls[n]) ==>
              exists v :: WroteAt(calls, n, v) && EntryAfter(calls, n + 1) == File(v + "\n", calls[n].writtenAt)
  {
    var before, c := EntryAfter(calls, n), calls[n];
    if Refreshes(before, c) {
      var v := Selection(c.nk.value, c.pb.value).value;
      assert c.nk.value != [] by { assert v in c.nk.value; }
      assert WroteAt(calls, n, v);
    }
  }

  /** The file is always the work of the last refreshing call. */
  lemma {:induction false} EntryComesFromRefresh(calls: seq<Call>, n: nat)
    requires n <= |calls|
    ensures var e := EntryAfter(calls, n);
            && !e.Directory?
            && (e.File? ==> exists i, v :: 0 <= i < n && WroteAt(calls, i, v)
                              && e == File(v + "\n", calls[i].writtenAt)
                              && forall j :: i < j < n ==> !Refreshes(EntryAfter(calls, j), calls[j]))
  {
    hide Effect, Refreshes, WroteAt;
    if n > 0 {
      EntryComesFromRefresh(calls, n - 1);
      EntryStep(calls, n - 1);
    }
  }

  /**
   Over any sequence of calls on one file, every unpinned success is the
   selection some call made from the tag lists it was given and wrote to the
   file, and that write is no older than the answering call's time to live.
   */
  lemma CacheAgreement(calls: seq<Call>, n: nat)
    requires n < |calls| && Orderly(calls) && calls[n].pinned == "" && calls[n].ttl >= 0
    requires Effect(EntryAfter(calls, n), calls[n]).1.Ok?
    ensures var answer := Effect(EntryAfter(calls, n), calls[n]).1.value;
            exists i :: 0 <= i <= n && WroteAt(calls, i, answer)
                        && calls[i].writtenAt >= calls[n].now - calls[n].ttl
                        && (i < n ==> calls[i].writtenAt <= calls[n].now)
  {
    var entry, c := EntryAfter(calls, n), calls[n];
    EntryComesFromRefresh(calls, n);
    if ReadCached(entry, c).Some? {
      var i, v :| 0 <= i < n && WroteAt(calls, i, v) && entry == File(v + "\n", calls[i].writtenAt);
      CachedTextRoundTrip(v);
    } else {
      assert WroteAt(calls, n, Effect(entry, c).1.value);
    }
  }

  /** After an unpinned success the file holds the answer. */
  lemma SuccessLeavesAnswer(entry: Entry, c: Call)
    requires c.pinned == "" && Effect(entry, c).1.Ok?
    ensures Effect(entry, c).0.File? && Trim(Effect(entry, c).0.content, SPACE) == Effect(entry, c).1.value
    ensures !Refreshes(entry, c) ==> entry.File? && Effect(entry, c).1.value == Trim(entry.content, SPACE)
  {
    if ReadCached(entry, c).None? {
      CachedTextRoundTrip(Effect(entry, c).1.value);
    }
  }

  /** Two unpinned successes with no refresh in between give the same answer. */
  lemma SameAnswerUntilRefresh(calls: seq<Call>, m: nat, n: nat)
    requires m < n < |calls| && calls[m].pinned == "" && calls[n].pinned == ""
    requires Effect(EntryAfter(calls, m), calls[m]).1.Ok? && Effect(EntryAfter(calls, n), calls[n]).1.Ok?
    requires forall j :: m < j <= n ==> !Refreshes(EntryAfter(calls, j), calls[j])
    ensures Effect(EntryAfter(calls, m), calls[m]).1 == Effect(EntryAfter(calls, n), calls[n]).1
  {
    hide Effect, Trim, Refreshes;
    EntryStays(calls, m + 1, n);
    SuccessLeavesAnswer(EntryAfter(calls, m), calls[m]);
    SuccessLeavesAnswer(EntryAfter(calls, n), calls[n]);
  }

  lemma {:induction false} EntryStays(calls: seq<Call>, m: nat, n: nat)
    requires m <= n < |calls|
    requires forall j :: m <= j < n ==> !Refreshes(EntryAfter(calls, j), calls[j])
    ensures EntryAfter(calls, n) == EntryAfter(calls, m)
  {
    hide Effect, Refreshes, WroteAt;
    if m < n {
      EntryStays(calls, m, n - 1);
      EntryComesFromRefresh(calls, n - 1);
      EntryStep(calls, n - 1);
      assert !Refreshes(EntryAfter(calls, n - 1), calls[n - 1]);
    }
  }

  /**
   After a call that selected v and wrote it, every unpinned call that can read
   the file within its time to live answers v, registry or not, until another
   call refreshes.
   */
  lemma FreshUntilExpiry(calls: seq<Call>, m: nat, n: nat, v: string)
    requires m < n < |calls| && WroteAt(calls, m, v)
    requires forall j :: m < j < n ==> !Refreshes(EntryAfter(calls, j), calls[j])
    requires calls[n].pinned == "" && calls[n].cacheDir && calls[n].readable
    requires calls[n].now <= calls[m].writtenAt + calls[n].ttl
    ensures Effect(EntryAfter(calls, n), calls[n]) == (EntryAfter(calls, n), Ok(v))
  {
    hide Effect, EntryAfter, Refreshes, WroteAt, Trim;
    WroteLeaves(calls, m, v);
    EntryStays(calls, m + 1, n);
    FreshAnswers(EntryAfter(calls, n), calls[n]);
  }

  lemma WroteLeaves(calls: seq<Call>, i: nat, v: string)
    requires i < |calls| && WroteAt(calls, i, v)
    ensures EntryAfter(calls, i + 1) == File(v + "\n", calls[i].writtenAt) && Trim(v + "\n", SPACE) == v
  {
    hide Effect, EntryAfter, Refreshes, WroteAt, Trim, IsTag;
    EntryComesFromRefresh(calls, i);
    WroteRefreshes(calls, i, v);
    EntryStep(calls, i);
    WroteIsTag(calls, i, v);
    CachedTextRoundTrip(v);
  }

  lemma WroteRefreshes(calls: seq<Call>, i: nat, v: string)
    requires i < |calls| && WroteAt(calls, i, v)
    ensures Refreshes(EntryAfter(calls, i), calls[i])
  {
  }

  lemma WroteIsTag(calls: seq<Call>, i: nat, v: string)
    requires i < |calls| && WroteAt(calls, i, v)
    ensures IsTag(v) && forall w :: WroteAt(calls, i, w) ==> w == v
  {
  }
}
