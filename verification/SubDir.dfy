/**
 IsSubDir of runner.go: a climb from a path through filepath.Dir until a
 directory is the same file as the root. Paths are Unix paths.
 */
module SubDir {
  import opened Wrappers
  import opened Text

  predicate Rooted(p: string) {
    p != "" && p[0] == '/'
  }

  // ---- filepath.Clean and filepath.Dir ---------------------------------------------

  /** One element put on those kept so far: an empty one and a dot go, and a double dot takes the one before it. */
  function Push(rooted: bool, stack: seq<string>, e: string): seq<string> {
    if e == "" || e == "." then stack
    else if e != ".." then stack + [e]
    else if stack != [] && stack[|stack| - 1] != ".." then stack[..|stack| - 1]
    else if rooted then stack
    else stack + [e]
  }

  function Reduce(rooted: bool, parts: seq<string>, stack: seq<string>): seq<string> {
    if parts == [] then stack else Reduce(rooted, parts[1..], Push(rooted, stack, parts[0]))
  }

  function PathOf(rooted: bool, elements: seq<string>): string {
    if rooted then "/" + Join(elements, '/')
    else if elements == [] then "."
    else Join(elements, '/')
  }

  /** The elements of the cleaned path. */
  function Elements(p: string): seq<string> {
    Reduce(Rooted(p), Split(p, '/'), [])
  }

  function Clean(p: string): string {
    PathOf(Rooted(p), Elements(p))
  }

  /** The path up to and with its last slash, and what follows that. */
  function Upto(p: string): string {
    p[..LastIndex(p, '/') + 1]
  }

  function Last(p: string): string {
    p[LastIndex(p, '/') + 1..]
  }

  function Dir(p: string): string {
    Clean(Upto(p))
  }

  lemma UptoRooted(p: string)
    ensures Rooted(Upto(p)) == Rooted(p)
  {
    if Rooted(p) {
      assert LastIndex(p, '/') >= 0;
    }
  }

  /** The last slash parts a path; a name has none. */
  lemma PartsOf(head: string, last: string)
    requires '/' !in last
    ensures Upto(head + "/" + last) == head + "/" && Last(head + "/" + last) == last
    ensures Upto(last) == "" && Last(last) == last
  {
    var p := head + "/" + last;
    assert p == head + ['/'] + last;
    LastIndexSplits(head, '/', last);
    assert p[..|head| + 1] == head + "/";
    assert LastIndex(last, '/') == -1;
  }

  /** A path that is not a name has a part before its last slash. */
  lemma HeadOf(p: string) returns (head: string)
    requires '/' in p
    ensures p == head + "/" + Last(p) && Upto(p) == head + "/" && '/' !in Last(p)
  {
    var i := LastIndex(p, '/');
    assert i >= 0;
    head := p[..i];
    assert p == head + "/" + Last(p);
  }

  // ---- The climb ends ----------------------------------------------------------------

  /** Elements with one separator each. */
  function Weight(parts: seq<string>): nat {
    if parts == [] then 0 else |parts[0]| + 1 + Weight(parts[1..])
  }

  lemma {:induction false} WeightAppend(a: seq<string>, b: seq<string>)
    ensures Weight(a + b) == Weight(a) + Weight(b)
  {
    if a == [] {
      assert a + b == b;
    } else {
      WeightAppend(a[1..], b);
      assert (a + b)[1..] == a[1..] + b;
    }
  }

  lemma {:induction false} JoinWeight(parts: seq<string>, c: char)
    requires parts != []
    ensures |Join(parts, c)| + 1 == Weight(parts)
  {
    if |parts| > 1 {
      JoinWeight(parts[1..], c);
    } else {
      assert Weight(parts[1..]) == 0;
    }
  }

  lemma PushWeight(rooted: bool, stack: seq<string>, e: string)
    ensures Weight(Push(rooted, stack, e)) <= Weight(stack) + |e| + 1
  {
    WeightAppend(stack, [e]);
    assert Weight([e]) == |e| + 1;
    if stack != [] {
      WeightAppend(stack[..|stack| - 1], [stack[|stack| - 1]]);
      assert stack[..|stack| - 1] + [stack[|stack| - 1]] == stack;
    }
  }

  lemma {:induction false} ReduceWeight(rooted: bool, parts: seq<string>, stack: seq<string>)
    ensures Weight(Reduce(rooted, parts, stack)) <= Weight(parts) + Weight(stack)
  {
    hide Push;
    if parts != [] {
      PushWeight(rooted, stack, parts[0]);
      ReduceWeight(rooted, parts[1..], Push(rooted, stack, parts[0]));
    }
  }

  lemma {:induction false} ReduceAppend(rooted: bool, a: seq<string>, b: seq<string>, stack: seq<string>)
    ensures Reduce(rooted, a + b, stack) == Reduce(rooted, b, Reduce(rooted, a, stack))
  {
    hide Push;
    if a == [] {
      assert a + b == b;
    } else {
      assert (a + b)[0] == a[0] && (a + b)[1..] == a[1..] + b;
      ReduceAppend(rooted, a[1..], b, Push(rooted, stack, a[0]));
    }
  }

  lemma ReduceOne(rooted: bool, e: string, stack: seq<string>)
    ensures Reduce(rooted, [e], stack) == Push(rooted, stack, e)
  {
    assert [e][1..] == [];
  }

  /** A leading slash adds nothing to reduce. */
  lemma RootedElements(inner: string)
    ensures Elements("/" + inner) == Reduce(true, Split(inner, '/'), [])
  {
    assert "/" + inner == "" + ['/'] + inner;
    SplitConcat("", '/', inner);
    ReduceAppend(true, [""], Split(inner, '/'), []);
    ReduceOne(true, "", []);
  }

  /** A trailing slash adds nothing either. */
  lemma SlashElements(p: string)
    requires p != ""
    ensures Elements(p + "/") == Elements(p)
  {
    assert p + "/" == p + ['/'] + "";
    SplitConcat(p, '/', "");
    ReduceAppend(Rooted(p), Split(p, '/'), [""], []);
    ReduceOne(Rooted(p), "", Elements(p));
  }

  /** Cleaning does not lengthen a path. */
  lemma CleanLength(p: string)
    requires p != ""
    ensures 0 < |Clean(p)| <= |p|
  {
    var parts := if Rooted(p) then Split(p[1..], '/') else Split(p, '/');
    if Rooted(p) {
      assert p == "/" + p[1..];
      RootedElements(p[1..]);
      JoinSplit(p[1..], '/');
    } else {
      JoinSplit(p, '/');
    }
    JoinWeight(parts, '/');
    ReduceWeight(Rooted(p), parts, []);
    if Elements(p) != [] {
      JoinWeight(Elements(p), '/');
      assert Rooted(p) || |Elements(p)[0]| + 1 + Weight(Elements(p)[1..]) == Weight(Elements(p));
      CleanNonEmpty(p);
    }
  }

  /** No element kept is empty. */
  lemma CleanNonEmpty(p: string)
    ensures |Clean(p)| > 0
  {
    SplitFree(p, '/');
    ReduceCleans(Rooted(p), Split(p, '/'), []);
    if Elements(p) != [] {
      assert IsElement(Elements(p)[0]);
      JoinWeight(Elements(p), '/');
    }
  }

  // ---- Clean paths ------------------------------------------------------------------------

  /** What can stand between two slashes of a clean path. */
  predicate IsElement(e: string) {
    e != "" && e != "." && '/' !in e
  }

  /** Double dots stand only at the start of a relative path. */
  ghost predicate Cleaned(rooted: bool, es: seq<string>) {
    && (forall i :: 0 <= i < |es| ==> IsElement(es[i]))
    && (forall i :: 0 <= i < |es| && es[i] == ".." ==> !rooted && forall j :: 0 <= j < i ==> es[j] == "..")
  }

  lemma PushCleans(rooted: bool, stack: seq<string>, e: string)
    requires Cleaned(rooted, stack) && '/' !in e
    ensures Cleaned(rooted, Push(rooted, stack, e))
  {
  }

  lemma {:induction false} ReduceCleans(rooted: bool, parts: seq<string>, stack: seq<string>)
    requires Cleaned(rooted, stack) && forall i :: 0 <= i < |parts| ==> '/' !in parts[i]
    ensures Cleaned(rooted, Reduce(rooted, parts, stack))
  {
    hide Push, Cleaned;
    if parts != [] {
      PushCleans(rooted, stack, parts[0]);
      ReduceCleans(rooted, parts[1..], Push(rooted, stack, parts[0]));
    }
  }

  lemma ElementsCleaned(p: string)
    ensures Cleaned(Rooted(p), Elements(p))
  {
    SplitFree(p, '/');
    ReduceCleans(Rooted(p), Split(p, '/'), []);
  }

  /** Clean elements are all kept. */
  lemma {:induction false} ReduceKeeps(rooted: bool, es: seq<string>)
    requires Cleaned(rooted, es)
    ensures Reduce(rooted, es, []) == es
    decreases |es|
  {
    if es != [] {
      var init, last := es[..|es| - 1], es[|es| - 1];
      assert es == init + [last];
      ReduceKeeps(rooted, init);
      ReduceAppend(rooted, init, [last], []);
      ReduceOne(rooted, last, init);
      assert IsElement(last);
      assert last == ".." && init != [] ==> init[|init| - 1] == "..";
    }
  }

  lemma PathShape(rooted: bool, es: seq<string>)
    requires Cleaned(rooted, es)
    ensures PathOf(rooted, es) != "" && Rooted(PathOf(rooted, es)) == rooted
    ensures es != [] ==> PathOf(rooted, es) != "/" && PathOf(rooted, es) != "."
  {
    if es != [] {
      assert IsElement(es[0]);
      var j := Join(es, '/');
      assert j != "" && j[0] == es[0][0];
      assert |es| == 1 ==> j == es[0];
      assert |es| > 1 ==> j[|es[0]|] == '/';
    }
  }

  /** A clean path gives its elements back. */
  lemma ElementsOfPath(rooted: bool, es: seq<string>)
    requires Cleaned(rooted, es)
    ensures Elements(PathOf(rooted, es)) == es
  {
    PathShape(rooted, es);
    ReduceKeeps(rooted, es);
    var inner := Join(es, '/');
    if es == [] {
      SplitWhole("", '/');
      SplitWhole(".", '/');
      ReduceOne(rooted, "", []);
      ReduceOne(false, ".", []);
    } else {
      assert forall i :: 0 <= i < |es| ==> IsElement(es[i]);
      SplitJoin(es, '/');
    }
    if rooted {
      RootedElements(inner);
    }
  }

  lemma ElementsOfParts(head: string, last: string)
    requires '/' !in last
    ensures Elements(head + "/" + last) == Push(Rooted(head + "/"), Elements(head + "/"), last)
  {
    var rooted, parts := Rooted(head + "/"), Split(head, '/');
    assert head + "/" + last == head + ['/'] + last && head + "/" == head + ['/'] + "";
    SplitConcat(head, '/', last);
    SplitConcat(head, '/', "");
    SplitWhole(last, '/');
    SplitWhole("", '/');
    hide Split, Push, Reduce;
    ReduceAppend(rooted, parts, [""], []);
    ReduceAppend(rooted, parts, [last], []);
    ReduceOne(rooted, "", Reduce(rooted, parts, []));
    ReduceOne(rooted, last, Reduce(rooted, parts, []));
    PushNothing(rooted, Reduce(rooted, parts, []));
  }

  lemma PushNothing(rooted: bool, stack: seq<string>)
    ensures Push(rooted, stack, "") == stack && Push(rooted, stack, ".") == stack
  {
  }

  lemma ElementsOfName(name: string)
    requires '/' !in name
    ensures Elements(name) == Push(false, [], name) && Elements("") == []
  {
    SplitWhole(name, '/');
    SplitWhole("", '/');
    ReduceOne(false, name, []);
    ReduceOne(false, "", []);
  }

  /** The elements of a path are those of its directory part and its last one. */
  lemma ElementsByLast(p: string)
    ensures Elements(p) == Push(Rooted(p), Elements(Upto(p)), Last(p))
  {
    UptoRooted(p);
    hide Elements, Push, Upto, Last;
    if '/' in p {
      var head := HeadOf(p);
      ElementsOfParts(head, Last(p));
    } else {
      PartsOf("", p);
      ElementsOfName(p);
    }
  }

  /** Lowered by every step of the climb but the last; a name in the working directory goes to the dot. */
  function Rank(p: string): nat {
    |p| + if p == "." then 0 else 1
  }

  lemma FixedPoints()
    ensures Dir("/") == "/" && Dir(".") == "."
  {
    assert Upto("/") == "/" && Upto(".") == "";
    RootedElements("");
    assert "/" + "" == "/";
    SplitWhole("", '/');
    ReduceOne(true, "", []);
    ReduceOne(false, "", []);
  }

  /** The directory of a path is the path itself only for the root and the dot, and comes sooner otherwise. */
  lemma DirShortens(p: string)
    requires p != ""
    ensures Dir(p) != ""
    ensures Dir(p) == p <==> p == "/" || p == "."
    ensures Dir(p) != p ==> Rank(Dir(p)) < Rank(p)
  {
    FixedPoints();
    CleanNonEmpty(Upto(p));
    hide Clean;
    var i := LastIndex(p, '/');
    if i < 0 {
      assert Upto(p) == Upto(".") == "";
    } else if i == 0 {
      assert Upto(p) == Upto("/") == "/";
      assert |p| > 1 || p == "/";
    } else {
      UptoShortens(p);
    }
  }

  lemma UptoShortens(p: string)
    requires LastIndex(p, '/') > 0
    ensures |Dir(p)| < |p|
  {
    var head := p[..LastIndex(p, '/')];
    assert Upto(p) == head + "/";
    SlashElements(head);
    CleanLength(head);
  }

  /** The paths the climb visits, from the first on. */
  function Climb(p: string): (ps: seq<string>)
    ensures p != "" ==> ps != [] && ps[0] == p
    decreases Rank(p)
  {
    if p == "" then []
    else
      DirShortens(p);
      var d := Dir(p);
      [p] + if d == p then [] else Climb(d)
  }

  // ---- The check -----------------------------------------------------------------------

  datatype Error = NotRelative | RootMissing | Missing(path: string) | NotSubDir

  /** A file system: the file a path names, if there is one. Two paths are the same file when it is the same. */
  type Files = string -> Option<nat>

  /** The root is visited at step k, and every path up to there exists. */
  predicate FoundAt(fs: Files, root: nat, ps: seq<string>, k: nat) {
    k < |ps| && fs(ps[k]) == Some(root) && forall j :: 0 <= j <= k ==> fs(ps[j]).Some?
  }

  /** The verdict on a climb: the first path that is missing or is the root decides. */
  function Verdict(fs: Files, root: nat, ps: seq<string>): Option<Error> {
    if ps == [] then Some(NotSubDir)
    else if fs(ps[0]).None? then Some(Missing(ps[0]))
    else if fs(ps[0]) == Some(root) then None
    else Verdict(fs, root, ps[1..])
  }

  predicate Passes(fs: Files, root: nat, p: string) {
    Verdict(fs, root, Climb(p)) == None
  }

  /** The check passes exactly when the root is visited and everything before it exists. */
  lemma {:induction false} PassesIffFound(fs: Files, root: nat, ps: seq<string>)
    ensures Verdict(fs, root, ps) == None <==> exists k: nat :: FoundAt(fs, root, ps, k)
    decreases |ps|
  {
    if ps != [] {
      PassesIffFound(fs, root, ps[1..]);
      if fs(ps[0]) == Some(root) {
        assert FoundAt(fs, root, ps, 0);
      } else if fs(ps[0]).Some? {
        if exists k: nat :: FoundAt(fs, root, ps[1..], k) {
          var k: nat :| FoundAt(fs, root, ps[1..], k);
          forall j | 0 <= j <= k + 1
            ensures fs(ps[j]).Some?
          {
            assert j > 0 ==> ps[j] == ps[1..][j - 1];
          }
          assert FoundAt(fs, root, ps, k + 1);
        }
        if exists k: nat :: FoundAt(fs, root, ps, k) {
          var k: nat :| FoundAt(fs, root, ps, k);
          assert FoundAt(fs, root, ps[1..], k - 1);
        }
      }
    }
  }

  /**
   filepath.Rel fails when exactly one of its paths is absolute, and not when
   both are; for two relative ones the library decides.
   */
  predicate RelFails(rel: (string, string) -> bool, a: string, b: string) {
    Rooted(a) != Rooted(b) || (!Rooted(a) && rel(a, b))
  }

  /** The path named is the first that is missing, and none before it is the root. */
  predicate MissingAt(fs: Files, root: nat, ps: seq<string>, k: nat, p: string) {
    k < |ps| && p == ps[k] && fs(p).None? && forall j :: 0 <= j < k ==> fs(ps[j]).Some? && fs(ps[j]) != Some(root)
  }

  /** The error names the first missing path, or there is none and the root is not visited. */
  lemma {:induction false} VerdictErrors(fs: Files, root: nat, ps: seq<string>)
    ensures forall p :: Verdict(fs, root, ps) == Some(Missing(p)) <==> exists k: nat :: MissingAt(fs, root, ps, k, p)
    ensures Verdict(fs, root, ps) == Some(NotSubDir)
       <==> forall j :: 0 <= j < |ps| ==> fs(ps[j]).Some? && fs(ps[j]) != Some(root)
    ensures Verdict(fs, root, ps) in {None, Some(NotSubDir)} || Verdict(fs, root, ps).value.Missing?
    decreases |ps|
  {
    if ps != [] {
      VerdictErrors(fs, root, ps[1..]);
      assert forall j :: 0 <= j < |ps| - 1 ==> ps[1..][j] == ps[j + 1];
      if fs(ps[0]).Some? && fs(ps[0]) != Some(root) {
        forall p
          ensures Verdict(fs, root, ps) == Some(Missing(p)) <==> exists k: nat :: MissingAt(fs, root, ps, k, p)
        {
          MissingLater(fs, root, ps, p);
        }
        assert forall j :: 0 < j < |ps| ==> ps[j] == ps[1..][j - 1];
      } else if fs(ps[0]).None? {
        assert MissingAt(fs, root, ps, 0, ps[0]);
      }
    }
  }

  lemma MissingLater(fs: Files, root: nat, ps: seq<string>, p: string)
    requires ps != [] && fs(ps[0]).Some? && fs(ps[0]) != Some(root)
    ensures (exists k: nat :: MissingAt(fs, root, ps, k, p)) <==> exists k: nat :: MissingAt(fs, root, ps[1..], k, p)
  {
    if exists k: nat :: MissingAt(fs, root, ps, k, p) {
      var k: nat :| MissingAt(fs, root, ps, k, p);
      assert MissingAt(fs, root, ps[1..], k - 1, p);
    }
    if exists k: nat :: MissingAt(fs, root, ps[1..], k, p) {
      var k: nat :| MissingAt(fs, root, ps[1..], k, p);
      assert MissingAt(fs, root, ps, k + 1, p);
    }
  }

  /**
   The loop of runner.go. Each turn goes on to a path of lower rank or stops. Of
   two absolute paths the second passes exactly when the first exists and the
   second is its file, or exists and has a lexical ancestor above its directory
   part that is, with everything nearer existing.
   */
  method IsSubDir(fs: Files, rel: (string, string) -> bool, a: string, path: string) returns (r: Option<Error>)
    ensures Rooted(a) != Rooted(path) ==> r == Some(NotRelative)
    ensures !Rooted(a) && !Rooted(path) && rel(a, path) ==> r == Some(NotRelative)
    ensures (Rooted(a) && Rooted(path)) || (!Rooted(a) && !Rooted(path) && !rel(a, path)) ==>
              if fs(a).None? then r == Some(RootMissing)
              else r == Verdict(fs, fs(a).value, Climb(path)) && (r == None <==> Passes(fs, fs(a).value, path))
    ensures Rooted(a) && Rooted(path) ==>
              (r == None <==>
                && fs(a).Some? && fs(path).Some?
                && (fs(path) == fs(a) || (path != "/" && Contained(fs, fs(a).value, true, Above(path)))))
  {
    if RelFails(rel, a, path) { return Some(NotRelative); }
    var ai := fs(a);
    if ai.None? { return Some(RootMissing); }
    if Rooted(path) { PassesIff(fs, ai.value, path); }
    hide Dir, Contained, Above;
    var b := path;
    while b != ""
      invariant Verdict(fs, ai.value, Climb(path)) == Verdict(fs, ai.value, Climb(b))
      decreases Rank(b)
    {
      DirShortens(b);
      var bi := fs(b);
      if bi.None? { return Some(Missing(b)); }
      if ai == bi { return None; }
      var n := Dir(b);
      if b == n {
        assert [b][1..] == [];
        break;
      }
      assert ([b] + Climb(n))[1..] == Climb(n);
      b := n;
    }
    return Some(NotSubDir);
  }

  // ---- Where the climb goes -----------------------------------------------------------------

  /** A clean path is a clean directory part and a last element. */
  lemma CleanParts(rooted: bool, init: seq<string>, last: string)
    requires Cleaned(rooted, init + [last])
    ensures Cleaned(rooted, init) && '/' !in last
    ensures init != [] ==> PathOf(rooted, init + [last]) == PathOf(rooted, init) + "/" + last
    ensures init == [] ==> PathOf(rooted, init + [last]) == (if rooted then "/" + last else last)
  {
    var es := init + [last];
    assert es[|init|] == last && IsElement(es[|init|]);
    assert forall i :: 0 <= i < |init| ==> es[i] == init[i];
    if init != [] {
      JoinAppend(init, last, '/');
    }
  }

  /** On a clean path Dir drops the last element. */
  lemma DirOfClean(rooted: bool, init: seq<string>, last: string)
    requires Cleaned(rooted, init + [last])
    ensures Dir(PathOf(rooted, init + [last])) == PathOf(rooted, init)
  {
    CleanParts(rooted, init, last);
    var d := PathOf(rooted, init);
    PathShape(rooted, init);
    ElementsOfPath(rooted, init);
    EmptyPaths();
    FixedPoints();
    hide PathOf, Elements, Cleaned;
    PartsOf(if init == [] then "" else d, last);
    if init != [] {
      SlashElements(d);
      assert Rooted(d + "/") == rooted;
    } else {
      assert "" + "/" == "/";
      assert Upto("/") == "/" && Upto(".") == "" by {
        PartsOf("", "");
        PartsOf("", ".");
      }
    }
  }

  /** A clean path and its lexical ancestors, nearest first. */
  function Ancestors(rooted: bool, es: seq<string>): seq<string> {
    seq(|es| + 1, k requires 0 <= k <= |es| => PathOf(rooted, es[..|es| - k]))
  }

  lemma AncestorsStep(rooted: bool, es: seq<string>)
    requires es != []
    ensures Ancestors(rooted, es) == [PathOf(rooted, es)] + Ancestors(rooted, es[..|es| - 1])
  {
    hide PathOf;
    var init := es[..|es| - 1];
    assert es[..|es|] == es;
    forall k | 1 <= k <= |es|
      ensures Ancestors(rooted, es)[k] == Ancestors(rooted, init)[k - 1]
    {
      assert init[..|init| - (k - 1)] == es[..|es| - k];
    }
  }

  /** The climb from a clean path visits exactly the path and its lexical ancestors. */
  lemma {:induction false} ClimbOfClean(rooted: bool, es: seq<string>)
    requires Cleaned(rooted, es)
    ensures Climb(PathOf(rooted, es)) == Ancestors(rooted, es)
    decreases |es|
  {
    var p := PathOf(rooted, es);
    PathShape(rooted, es);
    DirShortens(p);
    if es == [] {
      assert es[..0] == es;
      assert p == if rooted then "/" else ".";
    } else {
      assert es == es[..|es| - 1] + [es[|es| - 1]];
      CleanParts(rooted, es[..|es| - 1], es[|es| - 1]);
      DirOfClean(rooted, es[..|es| - 1], es[|es| - 1]);
      AncestorsStep(rooted, es);
      hide Dir, PathOf, Ancestors;
      ClimbOfClean(rooted, es[..|es| - 1]);
    }
  }

  /** The elements of the directory part; the climb goes on through the paths they spell. */
  function Above(p: string): seq<string> {
    Elements(Upto(p))
  }

  /**
   The climb from any path: the path as it is, then the clean directory part and
   its lexical ancestors, nearest first.
   */
  lemma ClimbOfAny(p: string)
    requires p != ""
    ensures Climb(p) == if p == "/" || p == "." then [p] else [p] + Ancestors(Rooted(p), Above(p))
  {
    DirShortens(p);
    if p != "/" && p != "." {
      UptoRooted(p);
      ElementsCleaned(Upto(p));
      ClimbOfClean(Rooted(p), Above(p));
    }
  }

  /** The ancestor of length n is the root, and every path from the clean path up to it exists. */
  ghost predicate RootIsAncestor(fs: Files, root: nat, rooted: bool, es: seq<string>, n: nat) {
    && n <= |es| && fs(PathOf(rooted, es[..n])) == Some(root)
    && forall m :: n <= m <= |es| ==> fs(PathOf(rooted, es[..m])).Some?
  }

  ghost predicate Contained(fs: Files, root: nat, rooted: bool, es: seq<string>) {
    exists n: nat :: RootIsAncestor(fs, root, rooted, es, n)
  }

  lemma FoundIsAncestor(fs: Files, root: nat, rooted: bool, es: seq<string>, k: nat)
    requires k <= |es|
    ensures FoundAt(fs, root, Ancestors(rooted, es), k) <==> RootIsAncestor(fs, root, rooted, es, |es| - k)
  {
    hide PathOf;
    var ps := Ancestors(rooted, es);
    if FoundAt(fs, root, ps, k) {
      forall m | |es| - k <= m <= |es|
        ensures fs(PathOf(rooted, es[..m])).Some?
      {
        assert ps[|es| - m] == PathOf(rooted, es[..m]);
      }
    }
  }

  lemma FoundWithin(fs: Files, root: nat, ps: seq<string>, k: nat)
    ensures FoundAt(fs, root, ps, k) ==> k < |ps|
  {
  }

  lemma AncestorWithin(fs: Files, root: nat, rooted: bool, es: seq<string>, n: nat)
    ensures RootIsAncestor(fs, root, rooted, es, n) ==> n <= |es|
  {
  }

  lemma AncestorsDecide(fs: Files, root: nat, rooted: bool, es: seq<string>)
    ensures Verdict(fs, root, Ancestors(rooted, es)) == None <==> Contained(fs, root, rooted, es)
  {
    var ps := Ancestors(rooted, es);
    PassesIffFound(fs, root, ps);
    assert |ps| == |es| + 1;
    hide PathOf, Verdict, Ancestors, RootIsAncestor, FoundAt;
    if exists k: nat :: FoundAt(fs, root, ps, k) {
      var k: nat :| FoundAt(fs, root, ps, k);
      FoundWithin(fs, root, ps, k);
      FoundIsAncestor(fs, root, rooted, es, k);
    }
    if exists n: nat :: RootIsAncestor(fs, root, rooted, es, n) {
      var n: nat :| RootIsAncestor(fs, root, rooted, es, n);
      AncestorWithin(fs, root, rooted, es, n);
      FoundIsAncestor(fs, root, rooted, es, |es| - n);
    }
  }

  /**
   Any path passes exactly when it is the root's file itself, or exists and some
   lexical ancestor of its directory part is, with everything nearer existing.
   */
  lemma PassesIff(fs: Files, root: nat, p: string)
    requires p != ""
    ensures Passes(fs, root, p)
       <==> fs(p) == Some(root)
            || (fs(p).Some? && p != "/" && p != "." && Contained(fs, root, Rooted(p), Above(p)))
  {
    var rest := Ancestors(Rooted(p), Above(p));
    ClimbOfAny(p);
    AncestorsDecide(fs, root, Rooted(p), Above(p));
    hide Climb, Ancestors, Contained, Above, Rooted;
    VerdictStep(fs, root, p, []);
    VerdictStep(fs, root, p, rest);
    assert [p] + [] == [p];
  }

  lemma VerdictStep(fs: Files, root: nat, p: string, rest: seq<string>)
    ensures Verdict(fs, root, [p] + rest) == None
       <==> fs(p) == Some(root) || (fs(p).Some? && Verdict(fs, root, rest) == None)
  {
    assert ([p] + rest)[1..] == rest;
  }

  // ---- What passing means ----------------------------------------------------------------------

  /** Containment in terms of the last element. */
  lemma ContainedStep(fs: Files, root: nat, rooted: bool, init: seq<string>, last: string)
    ensures var p := PathOf(rooted, init + [last]);
            Contained(fs, root, rooted, init + [last])
            <==> fs(p) == Some(root) || (fs(p).Some? && Contained(fs, root, rooted, init))
  {
    var es := init + [last];
    hide PathOf;
    assert es[..|es|] == es;
    assert forall m :: 0 <= m <= |init| ==> es[..m] == init[..m];
    if fs(PathOf(rooted, es)) == Some(root) {
      assert RootIsAncestor(fs, root, rooted, es, |es|);
    }
    if fs(PathOf(rooted, es)).Some? && Contained(fs, root, rooted, init) {
      var n: nat :| RootIsAncestor(fs, root, rooted, init, n);
      assert RootIsAncestor(fs, root, rooted, es, n);
    }
    if Contained(fs, root, rooted, es) {
      var n: nat :| RootIsAncestor(fs, root, rooted, es, n);
      assert fs(PathOf(rooted, es[..|es|])).Some?;
      assert n < |es| ==> RootIsAncestor(fs, root, rooted, init, n);
    }
  }

  lemma ContainedExists(fs: Files, root: nat, rooted: bool, es: seq<string>)
    ensures Contained(fs, root, rooted, es) ==> fs(PathOf(rooted, es)).Some?
    ensures fs(PathOf(rooted, es)) == Some(root) ==> Contained(fs, root, rooted, es)
  {
    assert es[..|es|] == es;
    if fs(PathOf(rooted, es)) == Some(root) {
      assert RootIsAncestor(fs, root, rooted, es, |es|);
    }
  }

  /**
   A path that does not end in a double dot, and names the same file as its
   clean form, passes exactly when the root contains that clean form.
   */
  lemma PassMeansContained(fs: Files, root: nat, p: string)
    requires p != "" && fs(p) == fs(Clean(p)) && Last(p) != ".."
    ensures Passes(fs, root, p) <==> Contained(fs, root, Rooted(p), Elements(p))
  {
    PassesIff(fs, root, p);
    ElementsByLast(p);
    ContainedExists(fs, root, Rooted(p), Elements(p));
    ContainedStep(fs, root, Rooted(p), Above(p), Last(p));
    if p == "/" || p == "." {
      FixedElements();
      OnlyAncestor(fs, root, Rooted(p));
    }
  }

  lemma FixedElements()
    ensures Elements("/") == [] && Elements(".") == [] && Clean("/") == "/" && Clean(".") == "."
  {
    EmptyPaths();
    ElementsOfPath(true, []);
    ElementsOfPath(false, []);
  }

  lemma EmptyPaths()
    ensures PathOf(true, []) == "/" && PathOf(false, []) == "."
  {
  }

  /** What has no elements is contained only in its own file. */
  lemma OnlyAncestor(fs: Files, root: nat, rooted: bool)
    ensures Contained(fs, root, rooted, []) <==> fs(PathOf(rooted, [])) == Some(root)
  {
    ContainedExists(fs, root, rooted, []);
    var none: seq<string> := [];
    assert none[..0] == none;
  }

  /**
   For an absolute path, passing means that the root contains the clean path,
   in every file system in which the two name the same file, exactly when the
   path does not end in a double dot below the top.
   */
  lemma DoubleDotDecides(p: string)
    requires Rooted(p)
    ensures (forall fs: Files, root: nat :: fs(p) == fs(Clean(p))
               ==> (Passes(fs, root, p) <==> Contained(fs, root, true, Elements(p))))
            <==> Last(p) != ".." || Dir(p) == "/"
  {
    if Last(p) != ".." {
      forall fs: Files, root: nat | fs(p) == fs(Clean(p))
        ensures Passes(fs, root, p) <==> Contained(fs, root, true, Elements(p))
      {
        PassMeansContained(fs, root, p);
      }
    } else if Dir(p) == "/" {
      forall fs: Files, root: nat | fs(p) == fs(Clean(p))
        ensures Passes(fs, root, p) <==> Contained(fs, root, true, Elements(p))
      {
        TopMeansContained(fs, root, p);
      }
    } else {
      ChildPasses(p);
      var fs: Files := q => if q == Dir(p) then Some(0) else Some(1);
      assert fs(p) == fs(Clean(p)) && Passes(fs, 0, p) && !Contained(fs, 0, true, Elements(p));
    }
  }

  lemma AboveOfDir(p: string)
    requires Rooted(p)
    ensures Dir(p) == PathOf(true, Above(p)) && Cleaned(true, Above(p))
    ensures Dir(p) == "/" <==> Above(p) == []
  {
    UptoRooted(p);
    ElementsCleaned(Upto(p));
    PathShape(true, Above(p));
  }

  lemma TopMeansContained(fs: Files, root: nat, p: string)
    requires Rooted(p) && fs(p) == fs(Clean(p)) && Last(p) == ".." && Dir(p) == "/"
    ensures Passes(fs, root, p) <==> Contained(fs, root, true, Elements(p))
  {
    AboveOfDir(p);
    ElementsByLast(p);
    PassesIff(fs, root, p);
    OnlyAncestor(fs, root, true);
  }

  /** Below the top the last double dot takes the last element of the directory part away. */
  lemma AboveParts(p: string) returns (last: string)
    requires Rooted(p) && Last(p) == ".." && Dir(p) != "/"
    ensures Above(p) == Elements(p) + [last] && Cleaned(true, Above(p)) && PathOf(true, Above(p)) == Dir(p)
  {
    var es := Above(p);
    AboveOfDir(p);
    ElementsByLast(p);
    hide Above, Elements, Dir, Last;
    last := es[|es| - 1];
    assert IsElement(last) && last != ".." && es == es[..|es| - 1] + [last];
    PushParent(es[..|es| - 1], last);
  }

  /** A path that ends in a double dot below the top names the parent of its directory part. */
  lemma ChildParts(p: string)
    requires Rooted(p) && Last(p) == ".." && Dir(p) != "/"
    ensures var init := Elements(p);
            && PathOf(true, Above(p)) == Dir(p) && p != "/" && p != "." && Dir(p) != p
            && init[..|init|] == init
            && forall n :: 0 <= n <= |init| ==> PathOf(true, init[..n]) != Dir(p)
  {
    RootedNotEmpty(p);
    FixedPoints();
    hide Above, Elements, PathOf, Dir, Last, Rooted, Cleaned;
    DirShortens(p);
    var last := AboveParts(p);
    Shorter(Elements(p), last);
  }

  lemma NotContained(fs: Files, root: nat, es: seq<string>)
    requires forall n :: 0 <= n <= |es| ==> fs(PathOf(true, es[..n])) != Some(root)
    ensures !Contained(fs, root, true, es)
  {
  }

  /** The file system in which the directory part alone is the root: its parent passes. */
  lemma ChildPasses(p: string)
    requires Rooted(p) && Last(p) == ".." && Dir(p) != "/"
    ensures var fs: Files := q => if q == Dir(p) then Some(0) else Some(1);
            fs(p) == fs(Clean(p)) && Passes(fs, 0, p) && !Contained(fs, 0, true, Elements(p))
  {
    hide PathOf, Elements, Passes, Contained, Dir, Last, Above, Rooted;
    var fs: Files := q => if q == Dir(p) then Some(0) else Some(1);
    ChildParts(p);
    RootedNotEmpty(p);
    PassesIff(fs, 0, p);
    ContainedExists(fs, 0, true, Above(p));
    NotContained(fs, 0, Elements(p));
  }

  lemma RootedNotEmpty(p: string)
    requires Rooted(p)
    ensures p != "" && p != "."
  {
  }

  /** A clean path differs from its proper ancestors. */
  lemma Shorter(init: seq<string>, last: string)
    requires Cleaned(true, init + [last])
    ensures forall n :: 0 <= n <= |init| ==> PathOf(true, init[..n]) != PathOf(true, init + [last])
  {
    var es := init + [last];
    forall n | 0 <= n <= |init|
      ensures PathOf(true, init[..n]) != PathOf(true, es)
    {
      assert init[..n] == es[..n];
      ElementsOfPath(true, es);
      ElementsOfPath(true, init[..n]);
    }
  }

  lemma ParentParts(init: seq<string>, last: string)
    requires Cleaned(true, init + [last])
    ensures var child := PathOf(true, init + [last]);
            Rooted(child + "/..") && Above(child + "/..") == init + [last] && Elements(child + "/..") == init
  {
    var es := init + [last];
    var child := PathOf(true, es);
    assert last != ".." by { assert es[|init|] == last; }
    PathShape(true, es);
    ElementsOfPath(true, es);
    PushParent(init, last);
    assert Rooted(child + "/..");
    hide Elements, PathOf, Cleaned, Push, Upto, Last;
    assert child + "/.." == child + "/" + "..";
    PartsOf(child, "..");
    SlashElements(child);
    ElementsByLast(child + "/..");
  }

  /**
   The parent of the root, spelled through the root, passes although the root
   does not contain it.
   */
  lemma ParentPasses(fs: Files, root: nat, init: seq<string>, last: string)
    requires Cleaned(true, init + [last])
    requires fs(PathOf(true, init + [last])) == Some(root) && fs(PathOf(true, init + [last]) + "/..").Some?
    ensures var p := PathOf(true, init + [last]) + "/..";
            Passes(fs, root, p) && Clean(p) == PathOf(true, init)
  {
    var p := PathOf(true, init + [last]) + "/..";
    ParentParts(init, last);
    hide Elements, PathOf, Cleaned, Contained, Above, Passes;
    PassesIff(fs, root, p);
    ContainedExists(fs, root, true, init + [last]);
    assert |p| > 2;
  }

  lemma PushParent(init: seq<string>, last: string)
    requires last != ".."
    ensures Push(true, init + [last], "..") == init
  {
  }

  /** So does the top through a root directly below it. */
  lemma TopPasses(fs: Files, root: nat)
    requires fs("/a") == Some(root) && fs("/a/..").Some?
    ensures Clean("/a/..") == "/" && Passes(fs, root, "/a/..")
  {
    var none: seq<string> := [];
    assert none + ["a"] == ["a"];
    assert Cleaned(true, ["a"]) && PathOf(true, ["a"]) == "/a" && "/a" + "/.." == "/a/..";
    EmptyPaths();
    hide Clean, Passes, PathOf, Cleaned;
    ParentPasses(fs, root, none, "a");
  }
}
