/**
 The console writer of log.go: bytes are split into lines, each line becomes a
 record with an id, a timestamp, a caller and a level, and the records that
 reach the level threshold are marshalled and handed down one by one.
 */
module Console {
  import opened Wrappers
  import opened Text

  /** A JSON value; only strings are ever looked into. */
  datatype Json = Str(text: string) | Other(id: nat)

  type Record = map<string, Json>

  /**
   What unmarshalling a line into an empty map does: fill it, make it nil, or
   fail. The decoder goes on after a value it cannot hold, so a failure may
   leave fields behind; it leaves none when the line is no JSON or no object.
   */
  datatype Parsed = Object(fields: Record) | Null | Rejected(fields: Record)

  /** The libraries below: encoding/json, the zerolog levels, the Postgres line pattern, and the global level. */
  datatype Env = Env(
    unmarshal: string -> Parsed,
    marshal: Record -> string,
    parseLevel: string -> Option<int>,
    levelName: int -> string,
    stripPostgres: string -> string,
    threshold: int)

  /** A console writer's own fields. */
  datatype Config = Config(field: string, shortId: string, shortName: string)

  const TS := "ts"
  const MSG := "msg"
  const CALLER := "caller"
  const LEVEL := "level"
  const RUNTIME := "runtime"
  const NAKAMA := "nk"
  const POSTGRES := "pg"

  const TRACE: int := -1
  const DEBUG: int := 0
  const INFO: int := 1

  /** A marshalled record is one line that starts with a brace and unmarshals to itself. */
  ghost predicate FaithfulJson(env: Env) {
    && (forall m: Record :: env.unmarshal(env.marshal(m)) == Object(m))
    && (forall m: Record :: '{' in env.marshal(m) && env.marshal(m)[0] == '{' && '\n' !in env.marshal(m))
  }

  /** A level is an eight-bit integer, and the name of each parses back. */
  ghost predicate FaithfulLevels(env: Env) {
    && (forall l :: -128 <= l <= 127 ==> env.parseLevel(env.levelName(l)) == Some(l))
    && (forall s :: env.parseLevel(s).Some? ==> -128 <= env.parseLevel(s).value <= 127)
    && env.levelName(TRACE) == "trace"
  }

  // ---- One line --------------------------------------------------------------

  /** Levels up to info become trace. */
  function MinLevel(a: int): int {
    if a > INFO then a else TRACE
  }

  /** The string held at a key, or the empty string for a value of another type. */
  function StringAt(m: Record, key: string): string {
    if key in m && m[key].Str? then m[key].text else ""
  }

  function LevelOr(env: Env, m: Record, default: int): int {
    match env.parseLevel(StringAt(m, LEVEL))
    case Some(l) => l
    case None => default
  }

  function Default(m: Record, key: string, v: string): Record {
    if key in m then m else m[key := Str(v)]
  }

  predicate StartsWith(s: string, prefix: string) {
    prefix <= s
  }

  /** Nakama's own records: a caller, and a Go runtime version if any. */
  predicate Demoted(cfg: Config, m: Record) {
    && CALLER in m
    && (RUNTIME in m ==> StartsWith(StringAt(m, RUNTIME), "go1."))
    && cfg.shortName == NAKAMA
  }

  function Demote(env: Env, cfg: Config, m: Record): Record {
    var named := m[CALLER := Str(cfg.shortName)];
    if LEVEL in named
    then named[LEVEL := Str(env.levelName(MinLevel(LevelOr(env, named, DEBUG))))]
    else named
  }

  function Complete(cfg: Config, now: string, m: Record): Record {
    Default(Default(Default(m, TS, now), CALLER, cfg.shortName), LEVEL, "trace")
  }

  /** The record of a non-blank line, or None where the write to a nil map panics. */
  function Normalize(env: Env, cfg: Config, now: string, buf: string): Option<Record> {
    var id := Str(cfg.shortId);
    match env.unmarshal(buf)
    case Null => None
    case Object(m) =>
      if buf != "" && buf[0] == '{' then
        var known := Default(m, cfg.field, cfg.shortId);
        Some(Complete(cfg, now, if Demoted(cfg, known) then Demote(env, cfg, known) else known))
      else
        Some(Complete(cfg, now, m[cfg.field := id][MSG := Str(Message(env, cfg, buf))]))
    case Rejected(m) =>
      Some(Complete(cfg, now, m[cfg.field := id][MSG := Str(Message(env, cfg, buf))]))
  }

  function Message(env: Env, cfg: Config, buf: string): string {
    if cfg.shortName == POSTGRES then env.stripPostgres(buf) else buf
  }

  predicate Passes(env: Env, m: Record) {
    LevelOr(env, m, TRACE) >= env.threshold
  }

  /** Every field a finished record must carry. */
  predicate Finished(cfg: Config, m: Record) {
    cfg.field in m && TS in m && CALLER in m && LEVEL in m
  }

  /** A line's record carries an id, a timestamp, a caller and a level, and keeps every field it was read with. */
  lemma NormalizeFinishes(env: Env, cfg: Config, now: string, buf: string)
    ensures Normalize(env, cfg, now, buf).None? <==> env.unmarshal(buf).Null?
    ensures Normalize(env, cfg, now, buf).Some? ==>
              var m := Normalize(env, cfg, now, buf).value;
              && Finished(cfg, m)
              && env.unmarshal(buf).fields.Keys <= m.Keys
              && (buf == "" || buf[0] != '{' ==> MSG in m && m[MSG] == Str(Message(env, cfg, buf)))
  {
  }

  /**
   The fields of an object line are kept, but for the caller and level of a demoted one; only the
   four fields are added.
   */
  lemma NormalizeKeeps(env: Env, cfg: Config, now: string, buf: string)
    requires env.unmarshal(buf).Object? && buf != "" && buf[0] == '{'
    ensures var fields := env.unmarshal(buf).fields;
            var m := Normalize(env, cfg, now, buf).value;
            && var own := Demoted(cfg, Default(fields, cfg.field, cfg.shortId));
            && (forall k :: k in fields && !(own && k in {CALLER, LEVEL}) ==> k in m && m[k] == fields[k])
            && (forall k :: k in m && k !in fields ==> k in {cfg.field, TS, CALLER, LEVEL})
            && (cfg.field !in fields && cfg.field !in {CALLER, LEVEL} ==> m[cfg.field] == Str(cfg.shortId))
            && (TS !in fields && TS != cfg.field ==> m[TS] == Str(now))
            && (CALLER !in fields && CALLER != cfg.field ==> m[CALLER] == Str(cfg.shortName))
            && (LEVEL !in fields && LEVEL != cfg.field ==> m[LEVEL] == Str("trace"))
  {
  }

  /** The text of a value, if it is a string, and otherwise the empty text. */
  function TextOf(v: Json): string {
    match v
    case Str(t) => t
    case Other(_) => ""
  }

  /** The level a record of Nakama's own is given in place of one: itself above info, and trace for the rest. */
  function Quietened(env: Env, v: Json): string {
    match env.parseLevel(TextOf(v))
    case Some(l) => env.levelName(if l > 1 then l else -1)
    case None => env.levelName(-1)
  }

  /**
   For a writer whose short name is nk, an object line with a caller and no
   runtime, or one that begins with go1., comes out with caller nk and its level,
   if it has one, quietened.
   */
  lemma OwnRecordDemoted(env: Env, cfg: Config, now: string, buf: string, x: string)
    requires cfg.shortName == "nk" && buf != "" && buf[0] == '{' && env.unmarshal(buf).Object?
    requires var m := env.unmarshal(buf).fields;
             && "caller" in m && cfg.field !in {"runtime", "caller", "level"}
             && ("runtime" !in m || m["runtime"] == Str("go1." + x))
    ensures var m, out := env.unmarshal(buf).fields, Normalize(env, cfg, now, buf).value;
            && out["caller"] == Str("nk")
            && out["level"] == Str(if "level" in m then Quietened(env, m["level"]) else "trace")
  {
    assert "go1." <= "go1." + x;
  }

  /** The runtime of a record is one no Go program has: a text that does not begin with go1., or no text. */
  predicate OtherRuntime(m: Record) {
    "runtime" in m && match m["runtime"]
                      case Str(t) => |t| < 4 || t[..4] != "go1."
                      case Other(_) => true
  }

  /**
   With another runtime, with no caller, or for a writer with another short name, an object line
   keeps its caller and level.
   */
  lemma OtherRecordKept(env: Env, cfg: Config, now: string, buf: string)
    requires buf != "" && buf[0] == '{' && env.unmarshal(buf).Object? && cfg.field !in {"runtime", "caller", "level"}
    requires cfg.shortName != "nk" || "caller" !in env.unmarshal(buf).fields || OtherRuntime(env.unmarshal(buf).fields)
    ensures var m, out := env.unmarshal(buf).fields, Normalize(env, cfg, now, buf).value;
            && out["caller"] == (if "caller" in m then m["caller"] else Str(cfg.shortName))
            && out["level"] == (if "level" in m then m["level"] else Str("trace"))
  {
    assert forall t: string :: "go1." <= t ==> |t| >= 4 && t[..4] == "go1.";
  }

  lemma CompleteAdds(cfg: Config, now: string, base: Record)
    ensures var r := Complete(cfg, now, base);
            && r.Keys == base.Keys + {TS, CALLER, LEVEL}
            && (forall k :: k in base ==> r[k] == base[k])
            && (TS !in base ==> r[TS] == Str(now))
            && (CALLER !in base ==> r[CALLER] == Str(cfg.shortName))
            && (LEVEL !in base ==> r[LEVEL] == Str("trace"))
  {
  }

  /**
   A line that fails to decode becomes a text record: its message and id are the
   writer's own, and what was decoded before the failure stays, a level included.
   */
  lemma TextLine(env: Env, cfg: Config, now: string, buf: string)
    requires env.unmarshal(buf).Rejected?
    ensures var fields := env.unmarshal(buf).fields;
            var r := Normalize(env, cfg, now, buf).value;
            && r.Keys == fields.Keys + {cfg.field, MSG, TS, CALLER, LEVEL}
            && r[MSG] == Str(if cfg.shortName == POSTGRES then env.stripPostgres(buf) else buf)
            && (cfg.field != MSG ==> r[cfg.field] == Str(cfg.shortId))
            && (forall k :: k in fields && k != MSG && k != cfg.field ==> r[k] == fields[k])
            && (TS !in fields && cfg.field != TS ==> r[TS] == Str(now))
            && (CALLER !in fields && cfg.field != CALLER ==> r[CALLER] == Str(cfg.shortName))
            && (LEVEL !in fields && cfg.field != LEVEL ==> r[LEVEL] == Str("trace"))
  {
    var fields := env.unmarshal(buf).fields;
    var base: Record := fields[cfg.field := Str(cfg.shortId)][MSG := Str(Message(env, cfg, buf))];
    assert base.Keys == fields.Keys + {cfg.field, MSG};
    CompleteAdds(cfg, now, base);
    hide Complete;
  }

  /** An object line that does not start with its brace is decoded but kept as text, and its own id is overwritten. */
  lemma PaddedObject(env: Env, cfg: Config, now: string, buf: string, m: Record)
    requires env.unmarshal(buf) == Object(m) && buf != "" && buf[0] != '{'
    ensures var r := Normalize(env, cfg, now, buf).value;
            && r[MSG] == Str(Message(env, cfg, buf))
            && (cfg.field != MSG ==> r[cfg.field] == Str(cfg.shortId))
            && (forall k :: k in m && k != MSG && k != cfg.field ==> k in r && r[k] == m[k])
  {
  }

  // ---- The sink --------------------------------------------------------------

  /** What a downstream writer has been offered and has taken. */
  datatype Feed = Feed(attempts: nat, received: seq<string>)

  /** One downstream write; attempt k fails when failing(k). */
  function Put(failing: nat -> bool, f: Feed, v: string): (Feed, bool) {
    if failing(f.attempts) then (Feed(f.attempts + 1, f.received), false)
    else (Feed(f.attempts + 1, f.received + [v]), true)
  }

  class Sink {
    const failing: nat -> bool
    var attempts: nat
    var received: seq<string>

    function State(): Feed
      reads this
    {
      Feed(attempts, received)
    }

    method Write(v: string) returns (ok: bool)
      modifies this
      ensures (State(), ok) == Put(failing, old(State()), v)
    {
      ok := !failing(attempts);
      attempts := attempts + 1;
      if ok { received := received + [v]; }
    }
  }

  // ---- One call --------------------------------------------------------------

  datatype Outcome = Done | WriteFailed(line: nat) | Crashed(line: nat)

  /** How one line went. */
  datatype Step = Went | Refused | Panicked

  /** What is done with a line, given what lies below. */
  type Handler = (string, Feed) -> (Feed, Step)

  /** Lines handled in order until one does not go through; i numbers the first. */
  function Run(h: Handler, lines: seq<string>, f: Feed, i: nat): (Feed, Outcome) {
    if lines == [] then (f, Done)
    else
      match h(lines[0], f)
      case (g, Went) => Run(h, lines[1..], g, i + 1)
      case (g, Refused) => (g, WriteFailed(i))
      case (g, Panicked) => (g, Crashed(i))
  }

  /** A write to the sink, whose attempt k fails when failing(k). */
  function SinkDown(failing: nat -> bool): Handler {
    (v, f) => var (g, ok) := Put(failing, f, v); (g, if ok then Went else Refused)
  }

  /** One line of a console writer, over any writer below. */
  function HandleLine(env: Env, cfg: Config, now: string, down: Handler, line: string, f: Feed): (Feed, Step) {
    if Trim(line, SPACE) == "" then (f, Went)
    else
      match Normalize(env, cfg, now, line)
      case None => (f, Panicked)
      case Some(m) => if Passes(env, m) then down(env.marshal(m), f) else (f, Went)
  }

  function LineHandler(env: Env, cfg: Config, now: string, down: Handler): Handler {
    (line, f) => HandleLine(env, cfg, now, down, line, f)
  }

  /** The effect of one Write call on what lies below. */
  function WriteEffect(env: Env, cfg: Config, now: string, text: string, down: Handler, f: Feed): (Feed, Outcome) {
    Run(LineHandler(env, cfg, now, down), Split(text, '\n'), f, 0)
  }

  /** A write to a console writer. */
  function WriterDown(env: Env, cfg: Config, now: string, down: Handler): Handler {
    (v, f) => StepOf(WriteEffect(env, cfg, now, v, down, f))
  }

  function StepOf(r: (Feed, Outcome)): (Feed, Step) {
    (r.0, match r.1
          case Done => Went
          case WriteFailed(_) => Refused
          case Crashed(_) => Panicked)
  }

  /** What a console writer writes to. */
  datatype Below = ToSink(sink: Sink) | ToWriter(writer: ConsoleWriter)

  class ConsoleWriter {
    const env: Env
    const w: Below
    const cfg: Config
    ghost const sink: Sink    // at the bottom
    ghost const depth: nat

    /** Every writer down to the sink shares the libraries and the global level. */
    ghost predicate Valid()
      decreases depth
    {
      match w
      case ToSink(s) => sink == s
      case ToWriter(u) => u.depth < depth && u.sink == sink && u.env == env && u.Valid()
    }

    /** The writers below have the same field and short names other than nk. */
    ghost predicate Alike()
      requires Valid()
      decreases depth
    {
      match w
      case ToSink(_) => true
      case ToWriter(u) => FaithfulJson(env) && u.cfg.field == cfg.field && u.cfg.shortName != NAKAMA && u.Alike()
    }

    constructor OverSink(env: Env, s: Sink, cfg: Config)
      ensures Valid() && Alike() && this.env == env && w == ToSink(s) && this.cfg == cfg && sink == s
    {
      this.env, w, this.cfg, sink, depth := env, ToSink(s), cfg, s, 0;
    }

    constructor Over(u: ConsoleWriter, cfg: Config)
      requires u.Valid()
      ensures Valid() && env == u.env && w == ToWriter(u) && this.cfg == cfg && sink == u.sink
      ensures Alike() <==> FaithfulJson(env) && u.cfg.field == cfg.field && u.cfg.shortName != NAKAMA && u.Alike()
    {
      env, w, this.cfg, sink, depth := u.env, ToWriter(u), cfg, u.sink, u.depth + 1;
    }

    /** How the downstream writes of a call went: it ends with the first that did not go through, and says so. */
    static ghost predicate StopsRight(steps: seq<Step>, outcome: Outcome) {
      && (forall k :: 0 <= k < |steps| - 1 ==> steps[k] == Went)
      && match outcome
         case Done => steps == [] || steps[|steps| - 1] == Went
         case WriteFailed(_) => steps != [] && steps[|steps| - 1] == Refused
         case Crashed(_) => steps == [] || steps[|steps| - 1] != Refused
    }

    /**
     The loop of log.go: m is a Go map, nil after a line that is just null. Each
     call reads the clock. Over writers that are alike, however many, it does to
     the sink what it would do right over the sink. Over any writer it stops at
     the first downstream write that does not go through.
     */
    method Write(lines: string, clock: nat -> string, tick: nat)
        returns (n: nat, outcome: Outcome, next: nat, ghost steps: seq<Step>)
      requires Valid()
      modifies sink
      ensures Alike() ==> (sink.State(), outcome)
                          == WriteEffect(env, cfg, clock(tick), lines, SinkDown(sink.failing), old(sink.State()))
      ensures n == if outcome == Done then |lines| else 0
      ensures next > tick && StopsRight(steps, outcome)
      decreases depth, 1
    {
      hide Normalize, Finished, Split, Trim, Alike;
      var now := clock(tick);
      next, steps := tick + 1, [];
      var parts := Split(lines, '\n');
      var i := 0;
      ghost var h := LineHandler(env, cfg, now, SinkDown(sink.failing));
      while i < |parts|
        invariant 0 <= i <= |parts|
        invariant next > tick && forall k :: 0 <= k < |steps| ==> steps[k] == Went
        invariant Alike() ==> Run(h, parts, old(sink.State()), 0) == Run(h, parts[i..], sink.State(), i)
      {
        var buf := parts[i];
        assert parts[i..][0] == buf && parts[i..][1..] == parts[i + 1..];
        if Trim(buf, SPACE) != "" {
          var m := BuildRecord(buf, now);
          if m == None { return 0, Crashed(i), next, steps; }
          if LevelOr(env, m.value, TRACE) >= env.threshold {
            NormalizeFinishes(env, cfg, now, buf);
            var step;
            step, next := Down(m.value, clock, next);
            steps := steps + [step];
            if step == Refused { return 0, WriteFailed(i), next, steps; }
            if step == Panicked { return 0, Crashed(i), next, steps; }
          }
        }
        i := i + 1;
      }
      return |lines|, Done, next, steps;
    }

    /** The downstream write of a finished record. */
    method Down(m: Record, clock: nat -> string, tick: nat) returns (step: Step, next: nat)
      requires Valid() && Finished(cfg, m) && Passes(env, m)
      modifies sink
      ensures next >= tick
      ensures Alike() ==> (sink.State(), step) == SinkDown(sink.failing)(env.marshal(m), old(sink.State()))
      decreases depth, 0
    {
      next := tick;
      match w {
        case ToSink(s) =>
          var ok := s.Write(env.marshal(m));
          step := if ok then Went else Refused;
        case ToWriter(u) =>
          ghost var f := sink.State();
          var n, outcome;
          ghost var steps;
          n, outcome, next, steps := u.Write(env.marshal(m), clock, tick);
          step := match outcome case Done => Went case WriteFailed(_) => Refused case Crashed(_) => Panicked;
          if Alike() {
            RecordPassesThrough(env, u.cfg, clock(tick), m, SinkDown(sink.failing), f);
          }
      }
    }

    /** The loop body of log.go up to the level test, updating the map in place. */
    method BuildRecord(buf: string, now: string) returns (r: Option<Record>)
      ensures r == Normalize(env, cfg, now, buf)
    {
      var parsed := env.unmarshal(buf);
      if parsed.Null? { return None; }
      var m := parsed.fields;
      if parsed.Object? && |buf| != 0 && buf[0] == '{' {
        if cfg.field !in m { m := m[cfg.field := Str(cfg.shortId)]; }
        var rs := StringAt(m, RUNTIME);
        if CALLER in m && (RUNTIME !in m || StartsWith(rs, "go1.")) && cfg.shortName == NAKAMA {
          m := m[CALLER := Str(cfg.shortName)];
          if LEVEL in m {
            var l := env.parseLevel(StringAt(m, LEVEL));
            m := m[LEVEL := Str(env.levelName(MinLevel(if l.Some? then l.value else DEBUG)))];
          }
        }
      } else {
        m := m[cfg.field := Str(cfg.shortId)];
        var s := buf;
        if cfg.shortName == POSTGRES { s := env.stripPostgres(s); }
        m := m[MSG := Str(s)];
      }
      if TS !in m { m := m[TS := Str(now)]; }
      if CALLER !in m { m := m[CALLER := Str(cfg.shortName)]; }
      if LEVEL !in m { m := m[LEVEL := Str("trace")]; }
      return Some(m);
    }
  }

  // ---- Writing is a homomorphism ----------------------------------------------

  /** The outcome of a call whose lines come after k others. */
  function Shift(o: Outcome, k: nat): Outcome {
    match o
    case Done => Done
    case WriteFailed(i) => WriteFailed(i + k)
    case Crashed(i) => Crashed(i + k)
  }

  lemma {:induction false} RunShift(h: Handler, lines: seq<string>, f: Feed, i: nat)
    ensures Run(h, lines, f, i) == var (g, o) := Run(h, lines, f, 0); (g, Shift(o, i))
  {
    if lines != [] {
      var (g, s) := h(lines[0], f);
      RunShift(h, lines[1..], g, i + 1);
      RunShift(h, lines[1..], g, 1);
    }
  }

  /** One batch of lines and then another, the second only when the first went well. */
  lemma {:induction false} RunConcat(h: Handler, a: seq<string>, b: seq<string>, f: Feed, i: nat)
    ensures var (g, o) := Run(h, a, f, i);
            Run(h, a + b, f, i) == (if o == Done then Run(h, b, g, i + |a|) else (g, o))
  {
    if a == [] {
      assert a + b == b;
    } else {
      assert (a + b)[0] == a[0] && (a + b)[1..] == a[1..] + b;
      var (g, s) := h(a[0], f);
      RunConcat(h, a[1..], b, g, i + 1);
    }
  }

  lemma RunBoth(h: Handler, a: seq<string>, b: seq<string>, f: Feed)
    ensures var (g, o) := Run(h, a, f, 0);
            var (k, p) := Run(h, b, g, 0);
            Run(h, a + b, f, 0) == (if o == Done then (k, Shift(p, |a|)) else (g, o))
  {
    RunConcat(h, a, b, f, 0);
    RunShift(h, b, Run(h, a, f, 0).0, |a|);
  }

  lemma {:induction false} RunCongruence(h: Handler, k: Handler, lines: seq<string>, f: Feed, i: nat)
    requires forall line, e :: h(line, e) == k(line, e)
    ensures Run(h, lines, f, i) == Run(k, lines, f, i)
  {
    if lines != [] {
      RunCongruence(h, k, lines[1..], h(lines[0], f).0, i + 1);
    }
  }

  /**
   Writing a, a newline and b in one call does what writing a and then b does,
   whatever fails on the way; only the reported line number is counted on.
   */
  lemma WriteHomomorphism(env: Env, cfg: Config, now: string, a: string, b: string, down: Handler, f: Feed)
    ensures var (g, o) := WriteEffect(env, cfg, now, a, down, f);
            var (k, p) := WriteEffect(env, cfg, now, b, down, g);
            && WriteEffect(env, cfg, now, a + "\n" + b, down, f)
               == (if o == Done then (k, Shift(p, |Split(a, '\n')|)) else (g, o))
  {
    SplitConcat(a, '\n', b);
    assert "\n" == ['\n'];
    RunBoth(LineHandler(env, cfg, now, down), Split(a, '\n'), Split(b, '\n'), f);
  }

  // ---- Exactly the passing lines ----------------------------------------------

  /** A line that produces a record that is handed down. */
  predicate Selected(env: Env, cfg: Config, now: string, line: string) {
    && !Blank(line)
    && Normalize(env, cfg, now, line).Some?
    && Passes(env, Normalize(env, cfg, now, line).value)
  }

  /** The positions of the selected lines, in order. */
  function SelectedAt(env: Env, cfg: Config, now: string, lines: seq<string>): (at: seq<nat>)
    ensures forall k :: 0 <= k < |at| ==> at[k] < |lines| && Selected(env, cfg, now, lines[at[k]])
  {
    if lines == [] then []
    else
      var n := |lines| - 1;
      var before := SelectedAt(env, cfg, now, lines[..n]);
      if Selected(env, cfg, now, lines[n]) then before + [n] else before
  }

  ghost predicate Ascending(at: seq<nat>) {
    forall j, k :: 0 <= j < k < |at| ==> at[j] < at[k]
  }

  /** Every selected line is listed, each once and in order. */
  lemma {:induction false} SelectedAtExact(env: Env, cfg: Config, now: string, lines: seq<string>)
    ensures var at := SelectedAt(env, cfg, now, lines);
            && Ascending(at)
            && (forall i :: 0 <= i < |lines| ==> (Selected(env, cfg, now, lines[i]) <==> i in at))
    decreases |lines|
  {
    hide Selected, Ascending;
    if lines == [] {
      NoneAscends();
    } else {
      var n := |lines| - 1;
      SelectedAtExact(env, cfg, now, lines[..n]);
      assert forall i :: 0 <= i < n ==> lines[i] == lines[..n][i];
      var before := SelectedAt(env, cfg, now, lines[..n]);
      assert forall k :: 0 <= k < |before| ==> before[k] < n;
      AddLast(before, n);
    }
  }

  lemma NoneAscends()
    ensures Ascending([])
  {
  }

  lemma AddLast(at: seq<nat>, n: nat)
    requires Ascending(at) && forall k :: 0 <= k < |at| ==> at[k] < n
    ensures Ascending(at + [n]) && forall i :: i in at + [n] <==> i in at || i == n
  {
  }

  function Marshalled(env: Env, cfg: Config, now: string, line: string): string
    requires Selected(env, cfg, now, line)
  {
    env.marshal(Normalize(env, cfg, now, line).value)
  }

  /** The downstream writes of a call that nothing interrupts. */
  function Outputs(env: Env, cfg: Config, now: string, lines: seq<string>): seq<string> {
    var at := SelectedAt(env, cfg, now, lines);
    seq(|at|, k requires 0 <= k < |at| => Marshalled(env, cfg, now, lines[at[k]]))
  }

  ghost predicate NoNulls(env: Env, lines: seq<string>) {
    forall i :: 0 <= i < |lines| && !Blank(lines[i]) ==> !env.unmarshal(lines[i]).Null?
  }

  lemma OutputsLast(env: Env, cfg: Config, now: string, lines: seq<string>, line: string)
    ensures Outputs(env, cfg, now, lines + [line])
         == Outputs(env, cfg, now, lines)
            + if Selected(env, cfg, now, line) then [Marshalled(env, cfg, now, line)] else []
  {
    var all := lines + [line];
    var before := SelectedAt(env, cfg, now, lines);
    assert all[..|all| - 1] == lines;
    assert SelectedAt(env, cfg, now, all) == before + if Selected(env, cfg, now, line) then [|lines|] else [];
  }

  lemma HandleSelected(env: Env, cfg: Config, now: string, failing: nat -> bool, line: string, f: Feed)
    requires !failing(f.attempts) && (Blank(line) || !env.unmarshal(line).Null?)
    ensures HandleLine(env, cfg, now, SinkDown(failing), line, f)
         == if Selected(env, cfg, now, line)
            then (Feed(f.attempts + 1, f.received + [Marshalled(env, cfg, now, line)]), Went)
            else (f, Went)
  {
    TrimBlank(line);
    NormalizeFinishes(env, cfg, now, line);
  }

  /** A run over one more line that goes through. */
  lemma RunLast(h: Handler, before: seq<string>, line: string, f: Feed, g: Feed, e: Feed)
    requires Run(h, before, f, 0) == (g, Done) && h(line, g) == (e, Went)
    ensures Run(h, before + [line], f, 0) == (e, Done)
  {
    RunConcat(h, before, [line], f, 0);
    RunOne(h, line, g, |before|);
  }

  /** The feed after n more writes, all taken. */
  function Fed(f: Feed, outs: seq<string>): Feed {
    Feed(f.attempts + |outs|, f.received + outs)
  }

  lemma FedMore(f: Feed, outs: seq<string>, more: seq<string>)
    ensures Fed(Fed(f, outs), more) == Fed(f, outs + more)
  {
    assert f.received + outs + more == f.received + (outs + more);
  }

  lemma HandleOne(env: Env, cfg: Config, now: string, failing: nat -> bool, line: string, f: Feed)
    requires !failing(f.attempts) && (Blank(line) || !env.unmarshal(line).Null?)
    ensures LineHandler(env, cfg, now, SinkDown(failing))(line, f)
         == (Fed(f, if Selected(env, cfg, now, line) then [Marshalled(env, cfg, now, line)] else []), Went)
  {
    HandleSelected(env, cfg, now, failing, line, f);
    assert f.received + [] == f.received;
  }

  /**
   With nothing failing and no null line, a call hands down exactly the records
   of the selected lines, in order and once each.
   */
  lemma {:induction false} RunSelects(env: Env, cfg: Config, now: string, lines: seq<string>,
                                      failing: nat -> bool, f: Feed)
    requires (forall k :: !failing(k)) && NoNulls(env, lines)
    ensures Run(LineHandler(env, cfg, now, SinkDown(failing)), lines, f, 0)
            == (Fed(f, Outputs(env, cfg, now, lines)), Done)
    decreases |lines|
  {
    if lines == [] {
      assert f.received + [] == f.received;
    } else {
      var n := |lines| - 1;
      var before, line := lines[..n], lines[n];
      var outs := Outputs(env, cfg, now, before);
      var more := if Selected(env, cfg, now, line) then [Marshalled(env, cfg, now, line)] else [];
      assert lines == before + [line];
      RunSelects(env, cfg, now, before, failing, f);
      HandleOne(env, cfg, now, failing, line, Fed(f, outs));
      OutputsLast(env, cfg, now, before, line);
      FedMore(f, outs, more);
      hide Run, LineHandler, Outputs, Selected, Marshalled, Fed;
      RunLast(LineHandler(env, cfg, now, SinkDown(failing)), before, line, f, Fed(f, outs), Fed(Fed(f, outs), more));
    }
  }

  lemma RunOne(h: Handler, line: string, f: Feed, i: nat)
    ensures Run(h, [line], f, i)
         == match h(line, f)
            case (g, Went) => (g, Done)
            case (g, Refused) => (g, WriteFailed(i))
            case (g, Panicked) => (g, Crashed(i))
  {
    assert [line][1..] == [];
  }

  /** The same of a Write call on text. */
  lemma WriteSelects(env: Env, cfg: Config, now: string, text: string, failing: nat -> bool, f: Feed)
    requires (forall k :: !failing(k)) && NoNulls(env, Split(text, '\n'))
    ensures WriteEffect(env, cfg, now, text, SinkDown(failing), f)
            == (Fed(f, Outputs(env, cfg, now, Split(text, '\n'))), Done)
  {
    RunSelects(env, cfg, now, Split(text, '\n'), failing, f);
  }

  /** The first line at which a call panics: not blank, and decoded to null. */
  ghost predicate FirstNull(env: Env, lines: seq<string>, i: nat) {
    && i < |lines| && !Blank(lines[i]) && env.unmarshal(lines[i]).Null?
    && NoNulls(env, lines[..i])
  }

  lemma {:induction false} FindNull(env: Env, lines: seq<string>) returns (i: nat)
    requires !NoNulls(env, lines)
    ensures FirstNull(env, lines, i)
    decreases |lines|
  {
    var n := |lines| - 1;
    assert lines[..n] + [lines[n]] == lines;
    if NoNulls(env, lines[..n]) {
      i := n;
    } else {
      i := FindNull(env, lines[..n]);
      assert lines[..n][..i] == lines[..i];
    }
  }

  /** A call stops at its first null line, with the records before it handed down. */
  lemma StopsAtNull(env: Env, cfg: Config, now: string, text: string, failing: nat -> bool, f: Feed, i: nat)
    requires (forall k :: !failing(k)) && FirstNull(env, Split(text, '\n'), i)
    ensures WriteEffect(env, cfg, now, text, SinkDown(failing), f)
         == (Fed(f, Outputs(env, cfg, now, Split(text, '\n')[..i])), Crashed(i))
  {
    var lines, h := Split(text, '\n'), LineHandler(env, cfg, now, SinkDown(failing));
    var g := Fed(f, Outputs(env, cfg, now, lines[..i]));
    assert lines == lines[..i] + lines[i..];
    RunSelects(env, cfg, now, lines[..i], failing, f);
    TrimBlank(lines[i]);
    assert h(lines[i], g) == (g, Panicked);
    hide LineHandler, Outputs, Fed;
    RunConcat(h, lines[..i], lines[i..], f, 0);
  }

  /**
   With nothing failing below, a call gets through exactly when no line is null,
   and otherwise panics at the first that is.
   */
  lemma PanicsIffNull(env: Env, cfg: Config, now: string, text: string, failing: nat -> bool, f: Feed)
    requires forall k :: !failing(k)
    ensures var (g, o) := WriteEffect(env, cfg, now, text, SinkDown(failing), f);
            && (o == Done <==> NoNulls(env, Split(text, '\n')))
            && (o != Done ==> o.Crashed? && FirstNull(env, Split(text, '\n'), o.line)
                              && g == Fed(f, Outputs(env, cfg, now, Split(text, '\n')[..o.line])))
  {
    if NoNulls(env, Split(text, '\n')) {
      WriteSelects(env, cfg, now, text, failing, f);
    } else {
      var i := FindNull(env, Split(text, '\n'));
      StopsAtNull(env, cfg, now, text, failing, f, i);
    }
  }

  // ---- Stacking is absorbing ---------------------------------------------------

  /** A finished record of a writer is not changed by another writer with the same field. */
  lemma FinishedIsFixed(env: Env, cfg: Config, now: string, m: Record)
    requires FaithfulJson(env) && Finished(cfg, m)
    ensures cfg.shortName != NAKAMA ==> Normalize(env, cfg, now, env.marshal(m)) == Some(m)
    ensures Normalize(env, cfg, now, env.marshal(m)) == Some(m)
        <==> (Demoted(cfg, m) ==> m[CALLER] == Str(NAKAMA)
                                  && m[LEVEL] == Str(env.levelName(MinLevel(LevelOr(env, m, DEBUG)))))
  {
    assert env.unmarshal(env.marshal(m)) == Object(m);
    if Demoted(cfg, m) {
      var d := Demote(env, cfg, m);
      assert StringAt(m[CALLER := Str(cfg.shortName)], LEVEL) == StringAt(m, LEVEL);
      if m[CALLER] == Str(NAKAMA) && m[LEVEL] == Str(env.levelName(MinLevel(LevelOr(env, m, DEBUG)))) {
        assert d == m;
      } else {
        assert d[CALLER] == Str(NAKAMA);
        assert d[LEVEL] == Str(env.levelName(MinLevel(LevelOr(env, m, DEBUG))));
      }
    }
  }

  /** A marshalled finished record goes through a second writer as a single equal write. */
  lemma RecordPassesThrough(env: Env, below: Config, later: string, m: Record, down: Handler, f: Feed)
    requires FaithfulJson(env) && Finished(below, m) && Passes(env, m) && below.shortName != NAKAMA
    ensures WriterDown(env, below, later, down)(env.marshal(m), f) == down(env.marshal(m), f)
    ensures StepOf(WriteEffect(env, below, later, env.marshal(m), down, f)) == down(env.marshal(m), f)
  {
    var v, h := env.marshal(m), LineHandler(env, below, later, down);
    assert '\n' !in v && v[0] == '{';
    SplitWhole(v, '\n');
    FinishedIsFixed(env, below, later, m);
    assert !Blank(v);
    TrimBlank(v);
    RunOne(h, v, f, 0);
  }

  /**
   A console writer over a second one with the same field, whose short name is
   not nk, does exactly what it does alone over whatever lies below the second:
   the same records in the same order, the same failures, whatever the second
   clock says.
   */
  lemma StackingAbsorbs(env: Env, cfg: Config, now: string, below: Config, later: string,
                        text: string, down: Handler, f: Feed)
    requires FaithfulJson(env) && below.field == cfg.field && below.shortName != NAKAMA
    ensures WriteEffect(env, cfg, now, text, WriterDown(env, below, later, down), f)
         == WriteEffect(env, cfg, now, text, down, f)
  {
    var stacked := WriterDown(env, below, later, down);
    var h, k := LineHandler(env, cfg, now, stacked), LineHandler(env, cfg, now, down);
    forall line, e
      ensures h(line, e) == k(line, e)
    {
      NormalizeFinishes(env, cfg, now, line);
      var r := Normalize(env, cfg, now, line);
      if r.Some? && Passes(env, r.value) {
        RecordPassesThrough(env, below, later, r.value, down, e);
      }
    }
    RunCongruence(h, k, Split(text, '\n'), f, 0);
  }

  // ---- Demotion of Nakama's own records -----------------------------------------

  /**
   With a threshold above trace, a Nakama writer lets one of Nakama's own
   records through exactly when its level is above info and reaches the
   threshold; the record then keeps its level. A record without a level is dropped.
   */
  lemma NakamaRecordsQuietened(env: Env, cfg: Config, now: string, buf: string, m: Record)
    requires FaithfulLevels(env) && TRACE < env.threshold
    requires buf != "" && buf[0] == '{' && env.unmarshal(buf) == Object(m)
             && Demoted(cfg, Default(m, cfg.field, cfg.shortId))
    requires cfg.field != LEVEL && cfg.field != CALLER
    ensures var out := Normalize(env, cfg, now, buf).value;
            && out[CALLER] == Str(NAKAMA)
            && (Passes(env, out)
                <==> LEVEL in m && LevelOr(env, m, DEBUG) > INFO && LevelOr(env, m, DEBUG) >= env.threshold)
            && (Passes(env, out) ==> LevelOr(env, out, TRACE) == LevelOr(env, m, DEBUG))
  {
    var known := Default(m, cfg.field, cfg.shortId);
    assert StringAt(known, LEVEL) == StringAt(m, LEVEL);
    var named := known[CALLER := Str(cfg.shortName)];
    assert StringAt(named, LEVEL) == StringAt(m, LEVEL);
    var out := Normalize(env, cfg, now, buf).value;
    if LEVEL in m {
      var l := MinLevel(LevelOr(env, m, DEBUG));
      assert StringAt(out, LEVEL) == env.levelName(l);
      assert env.parseLevel(env.levelName(l)) == Some(l);
    } else {
      assert StringAt(out, LEVEL) == env.levelName(TRACE);
    }
  }
}
