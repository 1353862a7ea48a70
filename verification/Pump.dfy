/**
 The pump loop of proxy.go run by itself, on sockets that deliver a finite
 script and then fail. Each iteration takes, in order, the relay actions of the
 direction it serves, so the loop is one of the interleavings of module Relay.
 */
module PumpLoop {
  import opened Wrappers
  import opened Relay
  import opened Text

  // ---- The log line of a message -------------------------------------------

  function Hex(bytes: seq<Byte>): string {
    if bytes == [] then "" else [HexDigit(bytes[0] / 16), HexDigit(bytes[0] % 16)] + Hex(bytes[1..])
  }

  function Raw(bytes: seq<Byte>): string {
    seq(|bytes|, i requires 0 <= i < |bytes| => bytes[i] as char)
  }

  function Integer(n: int): string {
    if n < 0 then "-" + Decimal(-n) else Decimal(n)
  }

  /** The text a pump writes to its log for a message. */
  function Describe(m: Message): string {
    if m.typ == 1 then "TXT: " + Raw(m.payload)
    else if m.typ == 2 then "BIN: " + Hex(m.payload)
    else "(" + Integer(m.typ) + "): " + Raw(m.payload)
  }

  // ---- Reading a log line back ---------------------------------------------

  function Nibble(c: char): (n: nat)
    ensures n < 16
  {
    if '0' <= c <= '9' then (c - '0') as nat
    else if 'a' <= c <= 'f' then (c - 'a') as nat + 10
    else 0
  }

  /** Two hexadecimal digits to a byte. */
  function Unhex(s: string): seq<Byte> {
    if |s| < 2 then [] else [16 * Nibble(s[0]) + Nibble(s[1])] + Unhex(s[2..])
  }

  function Unraw(s: string): seq<Byte> {
    seq(|s|, i requires 0 <= i < |s| => if s[i] as int < 256 then s[i] as int else 0)
  }

  function ReadInteger(s: string): int {
    if s != "" && s[0] == '-' then 0 - ReadDecimal(s[1..]) else ReadDecimal(s)
  }

  /** A reader of log lines: text after TXT, a hexadecimal dump after BIN, and text after any other type in brackets. */
  function ReadLine(line: string): Option<Message> {
    var head := Split(line, ')')[0];
    if |line| >= 5 && line[..5] == "TXT: " then Some(Message(1, Unraw(line[5..])))
    else if |line| >= 5 && line[..5] == "BIN: " then Some(Message(2, Unhex(line[5..])))
    else if head != "" && |head| + 3 <= |line| then Some(Message(ReadInteger(head[1..]), Unraw(line[|head| + 3..])))
    else None
  }

  lemma UnrawRaw(bytes: seq<Byte>)
    ensures Unraw(Raw(bytes)) == bytes
  {
    forall i | 0 <= i < |bytes|
      ensures Unraw(Raw(bytes))[i] == bytes[i]
    {
      assert Raw(bytes)[i] == bytes[i] as char;
    }
  }

  lemma {:induction false} UnhexHex(bytes: seq<Byte>)
    ensures Unhex(Hex(bytes)) == bytes
  {
    if bytes != [] {
      UnhexHex(bytes[1..]);
      assert Hex(bytes)[2..] == Hex(bytes[1..]);
    }
  }

  lemma IntegerReadsBack(n: int)
    ensures ReadInteger(Integer(n)) == n && ')' !in Integer(n)
  {
    var k: nat := if n < 0 then -n else n;
    DecimalReadsBack(k);
    assert ("-" + Decimal(k))[1..] == Decimal(k);
    assert forall i :: 0 <= i < |Decimal(k)| ==> IsDigit(Decimal(k)[i]);
  }

  lemma OtherReadsBack(m: Message)
    requires m.typ !in {1, 2}
    ensures ReadLine(Describe(m)) == Some(m)
  {
    var head, rest := "(" + Integer(m.typ), ": " + Raw(m.payload);
    var line := Describe(m);
    IntegerReadsBack(m.typ);
    UnrawRaw(m.payload);
    hide Integer, ReadInteger, Raw, Unraw;
    assert line == head + [')'] + rest;
    SplitConcat(head, ')', rest);
    SplitWhole(head, ')');
    assert Split(line, ')')[0] == head && head[1..] == Integer(m.typ);
    assert line[|head| + 3..] == Raw(m.payload);
    assert line[0] == '(';
  }

  /** The reader gives back the type and the payload of every message: text is type 1, binary is type 2. */
  lemma LogLineReadsBack(m: Message)
    ensures ReadLine(Describe(m)) == Some(m)
  {
    var line := Describe(m);
    if m.typ == 1 {
      assert line[..5] == "TXT: " && line[5..] == Raw(m.payload);
      UnrawRaw(m.payload);
    } else if m.typ == 2 {
      assert line[..5] == "BIN: " && line[5..] == Hex(m.payload);
      UnhexHex(m.payload);
    } else {
      OtherReadsBack(m);
    }
  }

  /** So the log line of a message determines the message. */
  lemma LogLineDeterminesMessage(m: Message, n: Message)
    requires Describe(m) == Describe(n)
    ensures m == n
  {
    LogLineReadsBack(m);
    LogLineReadsBack(n);
  }

  // ---- The loop ------------------------------------------------------------

  /** A websocket: the messages it will still deliver, and the writes it will still accept. */
  class Socket {
    var inbox: seq<Message>
    var room: nat
    var taken: seq<Message>

    method ReadMessage() returns (m: Option<Message>)
      modifies this`inbox
      ensures old(inbox) == [] ==> m == None && inbox == []
      ensures old(inbox) != [] ==> m == Some(old(inbox)[0]) && inbox == old(inbox)[1..]
    {
      if inbox == [] { return None; }
      m := Some(inbox[0]);
      inbox := inbox[1..];
    }

    method WriteMessage(m: Message) returns (ok: bool)
      modifies this`room, this`taken
      ensures ok <==> old(room) > 0
      ensures ok ==> room == old(room) - 1 && taken == old(taken) + [m]
      ensures !ok ==> room == old(room) && taken == old(taken)
    {
      ok := room > 0;
      if ok { room, taken := room - 1, taken + [m]; }
    }
  }

  class ErrorChannel {
    var slot: Option<Exit>
  }

  class Journal {
    var lines: seq<string>
  }

  function Lines(ms: seq<Message>): seq<string> {
    seq(|ms|, i requires 0 <= i < |ms| => Describe(ms[i]))
  }

  function Least(a: nat, b: nat): nat {
    if a <= b then a else b
  }

  /** How a lone pump leaves: the poll is tried before the read, the read before the write. */
  function LeavesBy(polls: nat, inbox: seq<Message>, room: nat): Exit {
    if polls <= |inbox| && polls <= room then ByContext
    else if |inbox| <= room then ByReadError
    else ByWriteError(inbox[room])
  }

  lemma {:induction false} Extend(s: State, actions: seq<Action>, a: Action)
    requires Runs(s, actions) && Enabled(After(s, actions), a)
    ensures Runs(s, actions + [a]) && After(s, actions + [a]) == Apply(After(s, actions), a)
    decreases |actions|
  {
    if actions == [] {
      assert Runs(Apply(s, a), []);
      assert [a][1..] == [];
      assert [] + [a] == [a];
    } else {
      Extend(Apply(s, actions[0]), actions[1..], a);
      assert (actions + [a])[1..] == actions[1..] + [a];
    }
  }

  /** The relay state seen by a pump that alone has run from s. */
  ghost predicate Tracks(s: State, trace: seq<Action>, d: Direction, p: Pump, channel: Option<Exit>, done: bool) {
    Runs(s, trace) && After(s, trace) == WithPump(s, d, p).(channel := channel, done := done)
  }

  /** The lone pump takes one more action; the rest of the relay is as it was. */
  lemma Track(s: State, trace: seq<Action>, d: Direction, p: Pump, x: Step)
      returns (longer: seq<Action>, q: Pump)
    requires Tracks(s, trace, d, p, None, false) && !s.done && s.incomingOpen && s.outgoingOpen
    requires CanStep(p, x, true, true, true)
    ensures q == Stepped(p, x, false)
    ensures Tracks(s, longer, d, q, if x.SendError? then Some(p.at.why) else None, false)
  {
    longer, q := trace + [Move(d, x)], Stepped(p, x, false);
    Extend(s, trace, Move(d, x));
  }

  /** The parent context closes and the pump polls it. */
  lemma TrackExit(s: State, trace: seq<Action>, d: Direction, p: Pump)
      returns (longer: seq<Action>, q: Pump)
    requires !s.done && Tracks(s, trace, d, p, None, false) && p.at == Check
    ensures q == p.(at := Exited(ByContext)) && Tracks(s, longer, d, q, None, true)
  {
    q := p.(at := Exited(ByContext));
    longer := trace + [ParentCancels];
    Extend(s, trace, ParentCancels);
    Extend(s, longer, Move(d, Poll));
    longer := longer + [Move(d, Poll)];
  }

  /** One whole iteration: a message is read, logged and written. */
  lemma TrackForward(s: State, trace: seq<Action>, d: Direction, p: Pump)
      returns (longer: seq<Action>)
    requires Tracks(s, trace, d, p, None, false) && !s.done && s.incomingOpen && s.outgoingOpen
    requires p.at == Check && |p.read| < |p.sent|
    ensures Tracks(s, longer, d, Forwarded(p), None, false)
  {
    var p1, p2, p3, p4;
    longer, p1 := Track(s, trace, d, p, Poll);
    longer, p2 := Track(s, longer, d, p1, ReadOk);
    longer, p3 := Track(s, longer, d, p2, Log);
    longer, p4 := Track(s, longer, d, p3, WriteOk);
  }

  /** An iteration whose read fails. */
  lemma TrackReadError(s: State, trace: seq<Action>, d: Direction, p: Pump)
      returns (longer: seq<Action>)
    requires Tracks(s, trace, d, p, None, false) && !s.done && s.incomingOpen && s.outgoingOpen
    requires p.at == Check
    ensures Tracks(s, longer, d, p.(at := Exited(ByReadError)), Some(ByReadError), false)
  {
    var p1, p2, p3;
    longer, p1 := Track(s, trace, d, p, Poll);
    longer, p2 := Track(s, longer, d, p1, ReadFails);
    longer, p3 := Track(s, longer, d, p2, SendError);
  }

  /** An iteration whose write fails. */
  lemma TrackWriteError(s: State, trace: seq<Action>, d: Direction, p: Pump)
      returns (longer: seq<Action>)
    requires Tracks(s, trace, d, p, None, false) && !s.done && s.incomingOpen && s.outgoingOpen
    requires p.at == Check && |p.read| < |p.sent|
    ensures Tracks(s, longer, d, Lost(p), Some(Lost(p).at.how), false)
  {
    var p1, p2, p3, p4, p5;
    longer, p1 := Track(s, trace, d, p, Poll);
    longer, p2 := Track(s, longer, d, p1, ReadOk);
    longer, p3 := Track(s, longer, d, p2, Log);
    longer, p4 := Track(s, longer, d, p3, WriteFails);
    longer, p5 := Track(s, longer, d, p4, SendError);
  }

  function Forwarded(p: Pump): Pump
    requires |p.read| < |p.sent|
  {
    var m := p.sent[|p.read|];
    p.(read := p.read + [m], logged := p.logged + [m], written := p.written + [m])
  }

  function Lost(p: Pump): Pump
    requires |p.read| < |p.sent|
  {
    var m := p.sent[|p.read|];
    p.(at := Exited(ByWriteError(m)), read := p.read + [m], logged := p.logged + [m])
  }

  /** The pump after k messages were read and n of them written. */
  function Moved(p: Pump, inbox: seq<Message>, k: nat, n: nat): Pump
    requires n <= k <= |inbox|
  {
    p.(read := p.read + inbox[..k], logged := p.logged + inbox[..k], written := p.written + inbox[..n])
  }

  lemma MovedNext(p: Pump, inbox: seq<Message>, i: nat)
    requires i < |inbox| && p.sent == p.read + inbox
    ensures var q := Moved(p, inbox, i, i);
            && |q.read| < |q.sent| && q.sent[|q.read|] == inbox[i]
            && Forwarded(q) == Moved(p, inbox, i + 1, i + 1)
            && Lost(q) == Moved(p, inbox, i + 1, i).(at := Exited(ByWriteError(inbox[i])))
            && Lines(inbox[..i + 1]) == Lines(inbox[..i]) + [Describe(inbox[i])]
            && inbox[..i + 1] == inbox[..i] + [inbox[i]]
  {
    assert inbox[..i + 1] == inbox[..i] + [inbox[i]];
    assert p.read + inbox[..i + 1] == p.read + inbox[..i] + [inbox[i]];
    assert p.logged + inbox[..i + 1] == p.logged + inbox[..i] + [inbox[i]];
    assert p.written + inbox[..i + 1] == p.written + inbox[..i] + [inbox[i]];
  }

  lemma TrackStart(s: State, d: Direction, inbox: seq<Message>)
    requires s.channel == None && !s.done
    ensures Tracks(s, [], d, Moved(PumpOf(s, d), inbox, 0, 0), None, false) && Lines(inbox[..0]) == []
  {
    assert Moved(PumpOf(s, d), inbox, 0, 0) == PumpOf(s, d);
  }

  /**
   The loop of proxy.go on a context that `polls` polls find open. It forwards
   the longest prefix of the inbox the context, the source and the sink allow,
   logs every message it read, sends its error unless it left through the
   context, and is a run of the relay from s in which only direction d moves.
   */
  method Ws(polls: nat, w: Journal, source: Socket, sink: Socket, errc: ErrorChannel,
            ghost s: State, ghost d: Direction)
      returns (how: Exit, ghost trace: seq<Action>)
    requires source != sink && errc.slot == None
    requires s.channel == None && !s.done && s.incomingOpen && s.outgoingOpen
    requires PumpOf(s, d).at == Check
    requires PumpOf(s, d).sent == PumpOf(s, d).read + source.inbox
    modifies w, source`inbox, sink`room, sink`taken, errc
    ensures how == LeavesBy(polls, old(source.inbox), old(sink.room))
    ensures var n := Least(polls, Least(|old(source.inbox)|, old(sink.room)));
            var k := if how.ByWriteError? then n + 1 else n;
            && sink.taken == old(sink.taken) + old(source.inbox)[..n]
            && sink.room == old(sink.room) - n
            && source.inbox == old(source.inbox)[k..]
            && w.lines == old(w.lines) + Lines(old(source.inbox)[..k])
            && Tracks(s, trace, d, Moved(PumpOf(s, d), old(source.inbox), k, n).(at := Exited(how)),
                      errc.slot, how == ByContext)
    ensures errc.slot == if how == ByContext then None else Some(how)
  {
    hide Tracks, Lines, Describe;
    var i := 0;
    ghost var inbox, p := source.inbox, PumpOf(s, d);
    trace := [];
    TrackStart(s, d, inbox);
    while true
      invariant 0 <= i <= |inbox| && i <= old(sink.room) && i <= polls
      invariant source.inbox == inbox[i..] && sink.room == old(sink.room) - i
      invariant sink.taken == old(sink.taken) + inbox[..i]
      invariant w.lines == old(w.lines) + Lines(inbox[..i])
      invariant errc.slot == None
      invariant Tracks(s, trace, d, Moved(p, inbox, i, i), None, false)
      decreases |inbox| - i
    {
      ghost var q := Moved(p, inbox, i, i);
      if i == polls {
        ghost var gone;
        trace, gone := TrackExit(s, trace, d, q);
        return ByContext, trace;
      }
      var got := source.ReadMessage();
      if got == None {
        trace := TrackReadError(s, trace, d, q);
        errc.slot := Some(ByReadError);
        return ByReadError, trace;
      }
      var m := got.value;
      MovedNext(p, inbox, i);
      w.lines := w.lines + [Describe(m)];
      var ok := sink.WriteMessage(m);
      if !ok {
        trace := TrackWriteError(s, trace, d, q);
        errc.slot := Some(ByWriteError(m));
        return ByWriteError(m), trace;
      }
      trace := TrackForward(s, trace, d, q);
      i := i + 1;
    }
  }

  // ---- The loop among the others ---------------------------------------------------

  /** Before a shared operation of the pump the others get their turn; ok is how the operation itself goes if it can. */
  datatype Turn = Turn(others: seq<Action>, ok: bool)

  /** An action of anyone but the pump of direction d. */
  predicate Foreign(d: Direction, a: Action) {
    a.Move? && a.d == d ==> a.step.PeerSends?
  }

  /** The others act, one after another, where they can. */
  function Settled(s: State, d: Direction, others: seq<Action>): State
    decreases |others|
  {
    if others == [] then s
    else
      var t, a := Settled(s, d, others[..|others| - 1]), others[|others| - 1];
      if Foreign(d, a) && Enabled(t, a) then Apply(t, a) else t
  }

  /**
   What the pump does next, by where it is: nothing while its error does not fit the channel, and
   when it has gone.
   */
  function Own(s: State, d: Direction, ok: bool): (x: Option<Step>)
    ensures x.Some? ==> Enabled(s, Move(d, x.value)) && !x.value.PeerSends?
  {
    var p := PumpOf(s, d);
    match p.at
    case Check => Some(Poll)
    case Reading => Some(if ok && SourceOpen(s, d) && |p.read| < |p.sent| then ReadOk else ReadFails)
    case Logging(_) => Some(Log)
    case Writing(_) => Some(if ok && SinkOpen(s, d) then WriteOk else WriteFails)
    case Sending(_) => if s.channel.None? then Some(SendError) else None
    case Exited(_) => None
  }

  /**
   The pump does nothing only when it can do nothing, and an operation that can succeed does exactly
   when it is let.
   */
  lemma OwnChooses(s: State, d: Direction, ok: bool)
    ensures Own(s, d, ok).None? <==> forall x: Step :: !x.PeerSends? ==> !Enabled(s, Move(d, x))
    ensures Enabled(s, Move(d, ReadOk)) ==> Own(s, d, ok) == Some(if ok then ReadOk else ReadFails)
    ensures Enabled(s, Move(d, WriteOk)) ==> Own(s, d, ok) == Some(if ok then WriteOk else WriteFails)
  {
    var p := PumpOf(s, d);
    if p.at.Sending? {
      assert Enabled(s, Move(d, SendError)) <==> s.channel.None?;
    }
  }

  /** One turn: the others, and then one operation of the pump. */
  function Turned(s: State, d: Direction, t: Turn): State {
    var u := Settled(s, d, t.others);
    match Own(u, d, t.ok)
    case Some(x) => Apply(u, Move(d, x))
    case None => u
  }

  /** Turn by turn: the pump as a machine that takes one step at a time. */
  function Machine(s: State, d: Direction, turns: seq<Turn>): State
    decreases |turns|
  {
    if turns == [] then s else Turned(Machine(s, d, turns[..|turns| - 1]), d, turns[|turns| - 1])
  }

  lemma MachineMore(s: State, d: Direction, turns: seq<Turn>, i: nat)
    requires i < |turns|
    ensures Machine(s, d, turns[..i + 1]) == Turned(Machine(s, d, turns[..i]), d, turns[i])
  {
    assert turns[..i + 1][..i] == turns[..i];
  }

  /** The pump's own place and histories. */
  predicate SameOwn(p: Pump, q: Pump) {
    p.at == q.at && p.read == q.read && p.logged == q.logged && p.written == q.written
  }

  lemma ForeignKeeps(s: State, d: Direction, a: Action)
    requires Foreign(d, a) && Enabled(s, a)
    ensures SameOwn(PumpOf(s, d), PumpOf(Apply(s, a), d))
  {
  }

  /** What the others do is a run that leaves the pump where it is. */
  lemma {:induction false} SettledRuns(s: State, d: Direction, others: seq<Action>) returns (actions: seq<Action>)
    ensures Runs(s, actions) && After(s, actions) == Settled(s, d, others)
    ensures SameOwn(PumpOf(s, d), PumpOf(Settled(s, d, others), d))
    decreases |others|
  {
    hide Apply, Enabled, Foreign;
    if others == [] {
      actions := [];
    } else {
      var a := others[|others| - 1];
      actions := SettledRuns(s, d, others[..|others| - 1]);
      var t := After(s, actions);
      if Foreign(d, a) && Enabled(t, a) {
        ForeignKeeps(t, d, a);
        Extend(s, actions, a);
        actions := actions + [a];
      }
    }
  }

  /** A turn is a run. */
  lemma TurnedRuns(s: State, d: Direction, t: Turn) returns (actions: seq<Action>)
    ensures Runs(s, actions) && After(s, actions) == Turned(s, d, t)
  {
    hide Apply, Enabled, Settled;
    actions := SettledRuns(s, d, t.others);
    var u := Settled(s, d, t.others);
    var x := Own(u, d, t.ok);
    if x.Some? {
      Extend(s, actions, Move(d, x.value));
      actions := actions + [Move(d, x.value)];
    }
  }

  /** Whatever the turns are, the machine does an interleaving of module Relay. */
  lemma {:induction false} MachineRuns(s: State, d: Direction, turns: seq<Turn>) returns (actions: seq<Action>)
    ensures Runs(s, actions) && After(s, actions) == Machine(s, d, turns)
    decreases |turns|
  {
    hide Turned;
    if turns == [] {
      actions := [];
    } else {
      var first := MachineRuns(s, d, turns[..|turns| - 1]);
      var more := TurnedRuns(After(s, first), d, turns[|turns| - 1]);
      RunsThen(s, first, more);
      actions := first + more;
    }
  }

  /** So what holds of every interleaving holds of where the machine ends. */
  lemma MachineIsFaithful(d: Direction, turns: seq<Turn>)
    ensures var s := Machine(START, d, turns);
            && Reachable(s)
            && forall e :: PumpOf(s, e).written <= PumpOf(s, e).read <= PumpOf(s, e).sent
  {
    var actions := MachineRuns(START, d, turns);
    var s := Machine(START, d, turns);
    assert Reachable(s);
    forall e
      ensures PumpOf(s, e).written <= PumpOf(s, e).read <= PumpOf(s, e).sent
    {
      RelayIsFaithful(s, e);
    }
  }

  /** What the pumps, the peers and the handler share. */
  class Shared {
    var s: State

    constructor (s: State)
      ensures this.s == s
    {
      this.s := s;
    }

    /** The others act. */
    method Interfere(d: Direction, others: seq<Action>)
      modifies this
      ensures s == Settled(old(s), d, others) && SameOwn(old(PumpOf(s, d)), PumpOf(s, d))
    {
      hide Apply, Enabled;
      for i := 0 to |others|
        invariant s == Settled(old(s), d, others[..i]) && SameOwn(old(PumpOf(s, d)), PumpOf(s, d))
      {
        assert others[..i + 1][..i] == others[..i];
        if Foreign(d, others[i]) && Enabled(s, others[i]) {
          ForeignKeeps(s, d, others[i]);
          s := Apply(s, others[i]);
        }
      }
      assert others[..|others|] == others;
    }

    /** The poll of the context. Here as below the others act first. */
    method Poll(d: Direction, t: Turn) returns (done: bool)
      requires PumpOf(s, d).at == Check
      modifies this
      ensures s == Turned(old(s), d, t)
      ensures SameOwn(old(PumpOf(s, d)).(at := if done then Exited(ByContext) else Reading), PumpOf(s, d))
    {
      hide Settled;
      Interfere(d, t.others);
      done := s.done;
      s := WithPump(s, d, PumpOf(s, d).(at := if done then Exited(ByContext) else Reading));
    }

    /** ReadMessage: the next message of the source, or an error. */
    method ReadMessage(d: Direction, t: Turn) returns (m: Option<Message>)
      requires PumpOf(s, d).at == Reading
      modifies this
      ensures s == Turned(old(s), d, t)
      ensures var p := old(PumpOf(s, d));
              SameOwn(if m.Some? then p.(at := Logging(m.value), read := p.read + [m.value])
                      else p.(at := Sending(ByReadError)), PumpOf(s, d))
    {
      hide Settled;
      Interfere(d, t.others);
      var p := PumpOf(s, d);
      if t.ok && SourceOpen(s, d) && |p.read| < |p.sent| {
        m := Some(p.sent[|p.read|]);
        s := WithPump(s, d, p.(at := Logging(m.value), read := p.read + [m.value]));
      } else {
        m := None;
        s := WithPump(s, d, p.(at := Sending(ByReadError)));
      }
    }

    /** The write to the log. */
    method Log(d: Direction, t: Turn, m: Message)
      requires PumpOf(s, d).at == Logging(m)
      modifies this
      ensures s == Turned(old(s), d, t)
      ensures var p := old(PumpOf(s, d)); SameOwn(p.(at := Writing(m), logged := p.logged + [m]), PumpOf(s, d))
    {
      hide Settled;
      Interfere(d, t.others);
      var p := PumpOf(s, d);
      s := WithPump(s, d, p.(at := Writing(m), logged := p.logged + [m]));
    }

    /** WriteMessage: the sink takes the message, or an error. */
    method WriteMessage(d: Direction, t: Turn, m: Message) returns (taken: bool)
      requires PumpOf(s, d).at == Writing(m)
      modifies this
      ensures s == Turned(old(s), d, t)
      ensures var p := old(PumpOf(s, d));
              SameOwn(if taken then p.(at := Check, written := p.written + [m])
                      else p.(at := Sending(ByWriteError(m))), PumpOf(s, d))
    {
      hide Settled;
      Interfere(d, t.others);
      var p := PumpOf(s, d);
      taken := t.ok && SinkOpen(s, d);
      if taken {
        s := WithPump(s, d, p.(at := Check, written := p.written + [m]));
      } else {
        s := WithPump(s, d, p.(at := Sending(ByWriteError(m))));
      }
    }

    /** The send on the error channel goes through unless its slot is taken. */
    method Send(d: Direction, t: Turn, e: Exit) returns (sent: bool)
      requires PumpOf(s, d).at == Sending(e)
      modifies this
      ensures s == Turned(old(s), d, t)
      ensures SameOwn(old(PumpOf(s, d)).(at := if sent then Exited(e) else Sending(e)), PumpOf(s, d))
    {
      hide Settled;
      Interfere(d, t.others);
      sent := s.channel.None?;
      if sent {
        s := WithPump(s, d, PumpOf(s, d).(at := Exited(e))).(channel := Some(e));
      }
    }
  }

  /** From some lines on the journal holds what a pump has logged since, in the order of its history. */
  ghost predicate LoggedSince(all: seq<string>, lines: seq<string>, before: seq<Message>, now: seq<Message>) {
    before <= now && all == lines + Lines(now[|before|..])
  }

  lemma LogNothing(lines: seq<string>, before: seq<Message>)
    ensures LoggedSince(lines, lines, before, before)
  {
    assert lines + [] == lines;
  }

  lemma LogOne(all: seq<string>, lines: seq<string>, before: seq<Message>, now: seq<Message>, m: Message)
    requires LoggedSince(all, lines, before, now)
    ensures LoggedSince(all + [Describe(m)], lines, before, now + [m])
  {
    assert (now + [m])[|before|..] == now[|before|..] + [m];
    assert Lines(now[|before|..] + [m]) == Lines(now[|before|..]) + [Describe(m)];
    assert lines + Lines(now[|before|..]) + [Describe(m)] == lines + (Lines(now[|before|..]) + [Describe(m)]);
  }

  /** The send of a pump that failed: it is tried in turn after turn until the slot is free. */
  method Report(sys: Shared, d: Direction, turns: seq<Turn>, from: nat, e: Exit, ghost start: State)
      returns (how: Option<Exit>, used: nat)
    requires PumpOf(sys.s, d).at == Sending(e) && from <= |turns| && sys.s == Machine(start, d, turns[..from])
    modifies sys
    ensures used <= |turns| && sys.s == Machine(start, d, turns[..used])
    ensures SameOwn(old(PumpOf(sys.s, d)).(at := if how.Some? then Exited(e) else Sending(e)), PumpOf(sys.s, d))
    ensures how == Some(e) || (how == None && used == |turns|)
  {
    hide Turned;
    for i := from to |turns|
      invariant sys.s == Machine(start, d, turns[..i])
      invariant SameOwn(old(PumpOf(sys.s, d)), PumpOf(sys.s, d))
    {
      MachineMore(start, d, turns, i);
      var sent := sys.Send(d, turns[i], e);
      if sent { return Some(e), i + 1; }
    }
    return None, |turns|;
  }

  /**
   The loop of proxy.go among everyone else: before each of its shared
   operations the other pump, the peers, the parent context and the handler do
   whatever the turns say. The nested loop does, turn by turn, what the machine
   does that only looks at where the pump is, and logs what its history says.
   None means that the turns ended first, or that too few are left for a whole
   iteration.
   */
  method WsAmong(sys: Shared, w: Journal, d: Direction, turns: seq<Turn>) returns (how: Option<Exit>, used: nat)
    requires PumpOf(sys.s, d).at == Check
    modifies sys, w
    ensures used <= |turns| && sys.s == Machine(old(sys.s), d, turns[..used])
    ensures how.Some? <==> PumpOf(sys.s, d).at.Exited?
    ensures how.Some? ==> PumpOf(sys.s, d).at == Exited(how.value)
    ensures how.None? ==> used == |turns| || (used + 4 > |turns| && PumpOf(sys.s, d).at == Check)
    ensures LoggedSince(w.lines, old(w.lines), old(PumpOf(sys.s, d).logged), PumpOf(sys.s, d).logged)
  {
    hide Describe, LoggedSince, Turned, Machine;
    var i := 0;
    ghost var start, lines, before := sys.s, w.lines, PumpOf(sys.s, d).logged;
    LogNothing(lines, before);
    MachineStart(start, d, turns);
    while i + 4 <= |turns|
      invariant 0 <= i <= |turns| && sys.s == Machine(start, d, turns[..i]) && PumpOf(sys.s, d).at == Check
      invariant LoggedSince(w.lines, lines, before, PumpOf(sys.s, d).logged)
      decreases |turns| - i
    {
      MachineMore(start, d, turns, i);
      var done := sys.Poll(d, turns[i]);
      if done { return Some(ByContext), i + 1; }
      MachineMore(start, d, turns, i + 1);
      var got := sys.ReadMessage(d, turns[i + 1]);
      if got == None {
        how, used := Report(sys, d, turns, i + 2, ByReadError, start);
        return;
      }
      var m := got.value;
      LogOne(w.lines, lines, before, PumpOf(sys.s, d).logged, m);
      w.lines := w.lines + [Describe(m)];
      MachineMore(start, d, turns, i + 2);
      sys.Log(d, turns[i + 2], m);
      MachineMore(start, d, turns, i + 3);
      var ok := sys.WriteMessage(d, turns[i + 3], m);
      if !ok {
        how, used := Report(sys, d, turns, i + 4, ByWriteError(m), start);
        return;
      }
      i := i + 4;
    }
    return None, i;
  }

  lemma MachineStart(s: State, d: Direction, turns: seq<Turn>)
    ensures Machine(s, d, turns[..0]) == s
  {
  }
}
