/**
 The websocket relay of proxy.go: a request handler starts two pumps, one per
 direction, that share a one-slot error channel and a cancellable context.
 The handler receives one error, then its deferred calls cancel the context and
 close both sockets. Every interleaving is a sequence of the actions below.
 */
module Relay {
  import opened Wrappers

  type Byte = b: int | 0 <= b < 256

  /** A websocket data message: its type and its payload. */
  datatype Message = Message(typ: int, payload: seq<Byte>)

  /** The two directions: Up reads the incoming socket, Down the outgoing one. */
  datatype Direction = Up | Down

  /** How a pump left its loop. Only the two error exits send on the channel. */
  datatype Exit = ByContext | ByReadError | ByWriteError(lost: Message)

  /** Where a pump is between two shared-state operations. */
  datatype Point =
    | Check
    | Reading
    | Logging(m: Message)
    | Writing(m: Message)
    | Sending(why: Exit)
    | Exited(how: Exit)

  /** One direction: its program point and the histories that cross it. */
  datatype Pump = Pump(
    at: Point,
    sent: seq<Message>,     // put on the source socket by its peer
    read: seq<Message>,     // returned by ReadMessage
    logged: seq<Message>,   // handed to the logging writer
    written: seq<Message>)  // accepted by WriteMessage

  /** The handler: waiting on the channel, then the deferred calls in their order. */
  datatype Handler = Waiting | Received | Cancelled | IncomingClosed | Finished

  datatype State = State(
    up: Pump,
    down: Pump,
    channel: Option<Exit>,
    received: Option<Exit>,
    handler: Handler,
    done: bool,            // the context is closed
    incomingOpen: bool,
    outgoingOpen: bool)

  /** What moves one direction: its pump, or the peer that feeds it. */
  datatype Step =
    | PeerSends(m: Message)
    | Poll
    | ReadOk
    | ReadFails
    | Log
    | WriteOk
    | WriteFails
    | SendError

  datatype Action =
    | Move(d: Direction, step: Step)
    | ParentCancels
    | Receive
    | Cancel
    | CloseIncoming
    | CloseOutgoing

  const IDLE := Pump(Check, [], [], [], [])

  const START := State(IDLE, IDLE, None, None, Waiting, false, true, true)

  function PumpOf(s: State, d: Direction): Pump {
    if d == Up then s.up else s.down
  }

  function WithPump(s: State, d: Direction, p: Pump): State {
    if d == Up then s.(up := p) else s.(down := p)
  }

  function Other(d: Direction): Direction {
    if d == Up then Down else Up
  }

  predicate SourceOpen(s: State, d: Direction) {
    if d == Up then s.incomingOpen else s.outgoingOpen
  }

  predicate SinkOpen(s: State, d: Direction) {
    SourceOpen(s, Other(d))
  }

  /** A closed socket never succeeds; any socket may fail at any time. */
  predicate CanStep(p: Pump, x: Step, sourceOpen: bool, sinkOpen: bool, slotFree: bool) {
    match x
    case PeerSends(_) => true
    case Poll => p.at == Check
    case ReadOk => p.at == Reading && sourceOpen && |p.read| < |p.sent|
    case ReadFails => p.at == Reading
    case Log => p.at.Logging?
    case WriteOk => p.at.Writing? && sinkOpen
    case WriteFails => p.at.Writing?
    case SendError => p.at.Sending? && slotFree
  }

  function Stepped(p: Pump, x: Step, done: bool): Pump
    requires CanStep(p, x, true, true, true)
  {
    match x
    case PeerSends(m) => p.(sent := p.sent + [m])
    case Poll => p.(at := if done then Exited(ByContext) else Reading)
    case ReadOk => p.(at := Logging(p.sent[|p.read|]), read := p.read + [p.sent[|p.read|]])
    case ReadFails => p.(at := Sending(ByReadError))
    case Log => p.(at := Writing(p.at.m), logged := p.logged + [p.at.m])
    case WriteOk => p.(at := Check, written := p.written + [p.at.m])
    case WriteFails => p.(at := Sending(ByWriteError(p.at.m)))
    case SendError => p.(at := Exited(p.at.why))
  }

  predicate Enabled(s: State, a: Action) {
    match a
    case Move(d, x) => CanStep(PumpOf(s, d), x, SourceOpen(s, d), SinkOpen(s, d), s.channel.None?)
    case ParentCancels => !s.done
    case Receive => s.handler == Waiting && s.channel.Some?
    case Cancel => s.handler == Received
    case CloseIncoming => s.handler == Cancelled
    case CloseOutgoing => s.handler == IncomingClosed
  }

  /** The effect of one action. */
  function Apply(s: State, a: Action): State
    requires Enabled(s, a)
  {
    match a
    case Move(d, x) =>
      var p := PumpOf(s, d);
      var t := WithPump(s, d, Stepped(p, x, s.done));
      if x.SendError? then t.(channel := Some(p.at.why)) else t
    case ParentCancels => s.(done := true)
    case Receive => s.(handler := Received, received := s.channel, channel := None)
    case Cancel => s.(handler := Cancelled, done := true)
    case CloseIncoming => s.(handler := IncomingClosed, incomingOpen := false)
    case CloseOutgoing => s.(handler := Finished, outgoingOpen := false)
  }

  /** A run: every action is enabled where it is taken. */
  predicate Runs(s: State, actions: seq<Action>)
    decreases |actions|
  {
    actions == [] || (Enabled(s, actions[0]) && Runs(Apply(s, actions[0]), actions[1..]))
  }

  function After(s: State, actions: seq<Action>): State
    requires Runs(s, actions)
    decreases |actions|
  {
    if actions == [] then s else After(Apply(s, actions[0]), actions[1..])
  }

  ghost predicate Reachable(s: State) {
    exists actions :: Runs(START, actions) && After(START, actions) == s
  }

  // ---- The invariant -------------------------------------------------------

  /** The message read but not written: in hand, or lost to a failed write. */
  function InFlight(at: Point): seq<Message> {
    match at
    case Logging(m) => [m]
    case Writing(m) => [m]
    case Sending(ByWriteError(m)) => [m]
    case Exited(ByWriteError(m)) => [m]
    case _ => []
  }

  ghost predicate FlowInv(p: Pump) {
    && p.read <= p.sent
    && p.read == p.written + InFlight(p.at)
    && p.logged == (if p.at.Logging? then p.written else p.read)
    && SendsErrorsOnly(p)
  }

  /** Only the two error exits send. */
  predicate SendsErrorsOnly(p: Pump) {
    p.at.Sending? ==> p.at.why != ByContext
  }

  predicate LeftByError(p: Pump) {
    p.at.Exited? && p.at.how != ByContext
  }

  function Count(b: bool): nat {
    if b then 1 else 0
  }

  /** Errors sent so far are the one buffered and the one received. */
  ghost predicate ChannelInv(s: State) {
    && Count(LeftByError(s.up)) + Count(LeftByError(s.down)) == Count(s.channel.Some?) + Count(s.received.Some?)
    && (s.received.Some? <==> s.handler != Waiting)
  }

  ghost predicate ShutdownInv(s: State) {
    && (s.handler in {Cancelled, IncomingClosed, Finished} ==> s.done)
    && (s.incomingOpen <==> s.handler !in {IncomingClosed, Finished})
    && (s.outgoingOpen <==> s.handler != Finished)
    && (s.up.at == Exited(ByContext) || s.down.at == Exited(ByContext) ==> s.done)
  }

  ghost predicate Inv(s: State) {
    FlowInv(s.up) && FlowInv(s.down) && ChannelInv(s) && ShutdownInv(s)
  }

  lemma StepKeepsFlow(p: Pump, x: Step, done: bool)
    requires FlowInv(p) && CanStep(p, x, true, true, true)
    ensures FlowInv(Stepped(p, x, done))
  {
    if x == ReadOk {
      assert p.read + [p.sent[|p.read|]] <= p.sent;
    }
  }

  lemma StepErrorExit(p: Pump, x: Step, done: bool)
    requires SendsErrorsOnly(p) && CanStep(p, x, true, true, true)
    ensures LeftByError(Stepped(p, x, done)) <==> x == SendError || LeftByError(p)
    ensures x == SendError ==> !LeftByError(p)
  {
  }

  /** A move leaves the other pump and the handler alone, and fills the slot only by sending. */
  lemma MoveFrame(s: State, d: Direction, x: Step)
    requires Enabled(s, Move(d, x))
    ensures var p, t := PumpOf(s, d), Apply(s, Move(d, x));
            && PumpOf(t, d) == Stepped(p, x, s.done) && PumpOf(t, Other(d)) == PumpOf(s, Other(d))
            && t.handler == s.handler && t.received == s.received
            && (if x.SendError? then s.channel.None? && t.channel.Some? else t.channel == s.channel)
  {
    hide Stepped;
  }

  lemma MoveKeepsChannel(s: State, d: Direction, x: Step)
    requires SendsErrorsOnly(PumpOf(s, d)) && ChannelInv(s) && Enabled(s, Move(d, x))
    ensures ChannelInv(Apply(s, Move(d, x)))
  {
    var p := PumpOf(s, d);
    StepErrorExit(p, x, s.done);
    MoveFrame(s, d, x);
    hide Stepped, CanStep, Apply, LeftByError, SendsErrorsOnly;
    var t := Apply(s, Move(d, x));
    assert Count(LeftByError(PumpOf(t, d))) == Count(LeftByError(p)) + Count(x == SendError);
    assert Count(t.channel.Some?) == Count(s.channel.Some?) + Count(x == SendError);
  }

  lemma StepKeepsChannel(s: State, a: Action)
    requires SendsErrorsOnly(s.up) && SendsErrorsOnly(s.down) && ChannelInv(s) && Enabled(s, a)
    ensures ChannelInv(Apply(s, a))
  {
    if a.Move? {
      MoveKeepsChannel(s, a.d, a.step);
    }
  }

  lemma StepKeepsShutdown(s: State, a: Action)
    requires SendsErrorsOnly(s.up) && SendsErrorsOnly(s.down) && ShutdownInv(s) && Enabled(s, a)
    ensures ShutdownInv(Apply(s, a))
  {
  }

  lemma StepKeepsInv(s: State, a: Action)
    requires Inv(s) && Enabled(s, a)
    ensures Inv(Apply(s, a))
  {
    if a.Move? {
      StepKeepsFlow(PumpOf(s, a.d), a.step, s.done);
    }
    StepKeepsChannel(s, a);
    StepKeepsShutdown(s, a);
  }

  lemma {:induction false} RunKeepsInv(s: State, actions: seq<Action>)
    requires Inv(s) && Runs(s, actions)
    ensures Inv(After(s, actions))
    decreases |actions|
  {
    if actions != [] {
      StepKeepsInv(s, actions[0]);
      RunKeepsInv(Apply(s, actions[0]), actions[1..]);
    }
  }

  lemma ReachableInv(s: State)
    requires Reachable(s)
    ensures Inv(s)
  {
    var actions :| Runs(START, actions) && After(START, actions) == s;
    RunKeepsInv(START, actions);
  }

  // ---- Main results --------------------------------------------------------

  /**
   In every reachable state, in each direction, what was read is what was
   written followed by at most one message, so the far peer has been given, in
   order and unaltered, a prefix of what the near peer sent.
   */
  lemma RelayIsFaithful(s: State, d: Direction)
    requires Reachable(s)
    ensures var p := PumpOf(s, d);
            && p.written <= p.read <= p.sent
            && |p.read| <= |p.written| + 1
            && (p.at == Check || p.at == Reading ==> p.read == p.written)
            && p.read == p.written + InFlight(p.at)
            && p.written <= p.logged <= p.read
  {
    ReachableInv(s);
    var p := PumpOf(s, d);
    assert p.written <= p.read;
  }

  /**
   No pump is stuck sending: a pump that wants to send either can, or the
   handler is at its receive with a value available, after which it can.
   */
  lemma SenderNeverStuck(s: State, d: Direction)
    requires Reachable(s) && PumpOf(s, d).at.Sending?
    ensures if s.channel.None? then Enabled(s, Move(d, SendError))
            else Enabled(s, Receive) && Enabled(Apply(s, Receive), Move(d, SendError))
  {
    ReachableInv(s);
  }

  /** When both pumps are gone, an error reached the handler or the channel exactly when one left by an error. */
  lemma ErrorReportedIffErrorExit(s: State)
    requires Reachable(s) && s.up.at.Exited? && s.down.at.Exited?
    ensures (s.received.Some? || s.channel.Some?) <==> (LeftByError(s.up) || LeftByError(s.down))
    ensures s.received.Some? && s.channel.Some? <==> LeftByError(s.up) && LeftByError(s.down)
    ensures s.up.at.how == ByContext && s.down.at.how == ByContext <==> s.handler == Waiting && s.channel.None?
  {
    ReachableInv(s);
  }

  /** An error received or buffered is that of a pump that left by it, and two are those of the two pumps. */
  ghost predicate Sourced(s: State) {
    && (s.received.Some? ==> exists d :: PumpOf(s, d).at == Exited(s.received.value))
    && (s.channel.Some? ==> exists d :: PumpOf(s, d).at == Exited(s.channel.value))
    && (s.received.Some? && s.channel.Some? ==>
          exists d :: PumpOf(s, d).at == Exited(s.received.value) && PumpOf(s, Other(d)).at == Exited(s.channel.value))
  }

  lemma StepKeepsSource(s: State, a: Action)
    requires Inv(s) && Sourced(s) && Enabled(s, a)
    ensures Sourced(Apply(s, a))
  {
    var t := Apply(s, a);
    if a.Move? {
      MoveKeepsSource(s, a.d, a.step);
    } else {
      assert PumpOf(t, Up) == PumpOf(s, Up) && PumpOf(t, Down) == PumpOf(s, Down);
    }
  }

  lemma MoveKeepsSource(s: State, d: Direction, x: Step)
    requires Inv(s) && Sourced(s) && Enabled(s, Move(d, x))
    ensures Sourced(Apply(s, Move(d, x)))
  {
    var t := Apply(s, Move(d, x));
    MoveFrame(s, d, x);
    assert forall e :: PumpOf(s, e).at.Exited? ==> PumpOf(t, e).at == PumpOf(s, e).at by {
      assert PumpOf(s, d).at.Exited? ==> x.PeerSends?;
    }
    if x == SendError && s.received.Some? {
      var e :| PumpOf(s, e).at == Exited(s.received.value);
      assert e == Other(d) && Other(e) == d;
    }
  }

  lemma {:induction false} RunKeepsSource(s: State, actions: seq<Action>)
    requires Inv(s) && Sourced(s) && Runs(s, actions)
    ensures Sourced(After(s, actions))
    decreases |actions|
  {
    if actions != [] {
      StepKeepsInv(s, actions[0]);
      StepKeepsSource(s, actions[0]);
      RunKeepsSource(Apply(s, actions[0]), actions[1..]);
    }
  }

  /** The handler only ever receives the error of a pump that left by it. */
  lemma ErrorsComeFromPumps(s: State)
    requires Reachable(s)
    ensures Sourced(s)
  {
    var actions :| Runs(START, actions) && After(START, actions) == s;
    RunKeepsSource(START, actions);
  }

  /** The upward pump reads the incoming socket and writes the outgoing one, the downward pump the other way round. */
  lemma SocketsOfPumps(s: State)
    ensures Enabled(s, Move(Up, ReadOk)) <==> s.up.at == Reading && s.incomingOpen && |s.up.read| < |s.up.sent|
    ensures Enabled(s, Move(Down, ReadOk)) <==> s.down.at == Reading && s.outgoingOpen && |s.down.read| < |s.down.sent|
    ensures Enabled(s, Move(Up, WriteOk)) <==> s.up.at.Writing? && s.outgoingOpen
    ensures Enabled(s, Move(Down, WriteOk)) <==> s.down.at.Writing? && s.incomingOpen
  {
  }

  /** The deferred calls go in their order: the context first, then the incoming socket, then the outgoing one. */
  lemma ClosedInOrder(s: State)
    requires Reachable(s)
    ensures !s.outgoingOpen ==> !s.incomingOpen
    ensures !s.incomingOpen ==> s.done && s.received.Some?
    ensures s.handler == Finished <==> !s.outgoingOpen
  {
    ReachableInv(s);
  }

  // ---- What can be relayed ---------------------------------------------------

  /** A relay that is up, with the pump of direction d about to poll and nothing left unread. */
  ghost predicate Serving(s: State, d: Direction) {
    && s.handler == Waiting && s.channel.None? && !s.done && s.incomingOpen && s.outgoingOpen
    && PumpOf(s, d).at == Check && PumpOf(s, d).read == PumpOf(s, d).sent
  }

  /** One message on its way from peer to peer. */
  lemma ForwardOne(s: State, d: Direction, m: Message) returns (actions: seq<Action>)
    requires Serving(s, d)
    ensures Runs(s, actions) && Serving(After(s, actions), d)
    ensures PumpOf(After(s, actions), d).written == PumpOf(s, d).written + [m]
    ensures PumpOf(After(s, actions), Other(d)) == PumpOf(s, Other(d))
  {
    var a1, a2, a3, a4, a5 := Move(d, PeerSends(m)), Move(d, Poll), Move(d, ReadOk), Move(d, Log), Move(d, WriteOk);
    var s1 := Apply(s, a1);
    var s2 := Apply(s1, a2);
    var s3 := Apply(s2, a3);
    var s4 := Apply(s3, a4);
    var s5 := Apply(s4, a5);
    assert Runs(s5, []) && After(s5, []) == s5;
    Prepend(s4, a5, []);
    Prepend(s3, a4, [a5] + []);
    Prepend(s2, a3, [a4] + ([a5] + []));
    Prepend(s1, a2, [a3] + ([a4] + ([a5] + [])));
    Prepend(s, a1, [a2] + ([a3] + ([a4] + ([a5] + []))));
    actions := [a1] + ([a2] + ([a3] + ([a4] + ([a5] + []))));
  }

  /** A run and one that goes on from its end. */
  lemma {:induction false} RunsThen(s: State, a: seq<Action>, b: seq<Action>)
    requires Runs(s, a) && Runs(After(s, a), b)
    ensures Runs(s, a + b) && After(s, a + b) == After(After(s, a), b)
    decreases |a|
  {
    if a == [] {
      assert a + b == b;
    } else {
      RunsThen(Apply(s, a[0]), a[1..], b);
      assert (a + b)[0] == a[0] && (a + b)[1..] == a[1..] + b;
    }
  }

  lemma {:induction false} ForwardAll(s: State, d: Direction, ms: seq<Message>) returns (actions: seq<Action>)
    requires Serving(s, d)
    ensures Runs(s, actions) && Serving(After(s, actions), d)
    ensures PumpOf(After(s, actions), d).written == PumpOf(s, d).written + ms
    ensures PumpOf(After(s, actions), Other(d)) == PumpOf(s, Other(d))
    decreases |ms|
  {
    hide Serving, Apply, Enabled;
    if ms == [] {
      actions := [];
    } else {
      var init, last := ms[..|ms| - 1], ms[|ms| - 1];
      var before := ForwardAll(s, d, init);
      var more := ForwardOne(After(s, before), d, last);
      RunsThen(s, before, more);
      actions := before + more;
      assert ms == init + [last];
      assert PumpOf(s, d).written + init + [last] == PumpOf(s, d).written + ms;
    }
  }

  /** Whatever the two peers send each other can be delivered in full. */
  lemma AnythingCanBeRelayed(up: seq<Message>, down: seq<Message>)
    ensures exists s :: Reachable(s) && s.up.written == s.up.sent == up && s.down.written == s.down.sent == down
  {
    var first := ForwardAll(START, Up, up);
    var mid := After(START, first);
    assert Serving(mid, Down);
    var second := ForwardAll(mid, Down, down);
    RunsThen(START, first, second);
    var s := After(START, first + second);
    assert [] + up == up && [] + down == down;
    RunKeepsInv(START, first + second);
    assert Reachable(s);
    Delivered(s, Up);
    Delivered(s, Down);
  }

  lemma Delivered(s: State, d: Direction)
    requires Inv(s) && PumpOf(s, d).at == Check && PumpOf(s, d).read == PumpOf(s, d).sent
    ensures PumpOf(s, d).written == PumpOf(s, d).sent
  {
  }

  // ---- Shutdown ------------------------------------------------------------

  /** Actions of the program itself, as opposed to the peers and the parent context. */
  predicate Internal(a: Action) {
    !a.ParentCancels? && (a.Move? ==> !a.step.PeerSends?)
  }

  function PointRank(at: Point): nat {
    match at
    case Reading => 5
    case Logging(_) => 4
    case Writing(_) => 3
    case Sending(_) => 2
    case Check => 1
    case Exited(_) => 0
  }

  function HandlerRank(h: Handler): nat {
    match h
    case Waiting => 4
    case Received => 3
    case Cancelled => 2
    case IncomingClosed => 1
    case Finished => 0
  }

  /** Bounds the steps left once the context is closed. */
  function Measure(s: State): nat {
    PointRank(s.up.at) + PointRank(s.down.at) + HandlerRank(s.handler)
  }

  /** One more message can still be forwarded only from inside an iteration. */
  function Allowance(p: Pump): nat {
    |p.written| + Count(p.at.Reading? || p.at.Logging? || p.at.Writing?)
  }

  function InternalCount(actions: seq<Action>): nat {
    if actions == [] then 0 else Count(Internal(actions[0])) + InternalCount(actions[1..])
  }

  lemma PumpStepLowersRank(p: Pump, x: Step)
    requires CanStep(p, x, true, true, true)
    ensures var q := Stepped(p, x, true);
            && (if x.PeerSends? then q.at == p.at else PointRank(q.at) < PointRank(p.at))
            && Allowance(q) <= Allowance(p)
  {
  }

  lemma StepLowersMeasure(s: State, a: Action)
    requires s.done && Enabled(s, a)
    ensures var t := Apply(s, a);
            && t.done
            && Measure(t) + Count(Internal(a)) <= Measure(s)
            && Allowance(t.up) <= Allowance(s.up) && Allowance(t.down) <= Allowance(s.down)
  {
    if a.Move? {
      PumpStepLowersRank(PumpOf(s, a.d), a.step);
    }
  }

  /**
   Once the context is closed every program step lowers the measure, so any
   continuation takes at most fourteen of them, and each direction forwards at
   most one further message.
   */
  lemma {:induction false} ShutdownTerminates(s: State, actions: seq<Action>)
    requires s.done && Runs(s, actions)
    ensures var t := After(s, actions);
            && t.done
            && InternalCount(actions) + Measure(t) <= Measure(s) <= 14
            && Allowance(t.up) <= Allowance(s.up) <= |s.up.written| + 1
            && Allowance(t.down) <= Allowance(s.down) <= |s.down.written| + 1
    decreases |actions|
  {
    if actions != [] {
      StepLowersMeasure(s, actions[0]);
      ShutdownTerminates(Apply(s, actions[0]), actions[1..]);
    }
  }

  /** Steps that need nothing from outside: a read returns by itself only on a closed socket. */
  predicate Forced(s: State, a: Action) {
    && Internal(a) && Enabled(s, a)
    && (a.Move? ==> !a.step.ReadOk? && (a.step.ReadFails? ==> !SourceOpen(s, a.d)))
  }

  ghost predicate AtRest(s: State) {
    forall a :: !Forced(s, a)
  }

  lemma RestingPump(s: State, d: Direction)
    requires Inv(s) && (s.handler == Waiting ==> s.channel.None?)
    ensures (forall x :: !Forced(s, Move(d, x)))
            <==> PumpOf(s, d).at.Exited? || (PumpOf(s, d).at == Reading && SourceOpen(s, d))
  {
    if forall x :: !Forced(s, Move(d, x)) {
      assert !Forced(s, Move(d, Poll)) && !Forced(s, Move(d, ReadFails)) && !Forced(s, Move(d, Log));
      assert !Forced(s, Move(d, WriteFails)) && !Forced(s, Move(d, SendError));
    }
  }

  /** The handler has finished and both pumps are gone. */
  predicate AllOver(s: State) {
    s.handler == Finished && s.up.at.Exited? && s.down.at.Exited?
  }

  /** The handler still waits, with each pump blocked in a read or gone through the context branch. */
  predicate Idle(s: State) {
    && s.handler == Waiting && s.channel.None?
    && (s.up.at == Reading || s.up.at == Exited(ByContext))
    && (s.down.at == Reading || s.down.at == Exited(ByContext))
  }

  lemma RestingByInv(s: State)
    requires Inv(s)
    ensures AtRest(s) <==> AllOver(s) || Idle(s)
  {
    assert PumpOf(s, Up) == s.up && PumpOf(s, Down) == s.down;
    if s.handler == Waiting ==> s.channel.None? {
      RestingPump(s, Up);
      RestingPump(s, Down);
    } else {
      assert Forced(s, Receive);
    }
    if AtRest(s) {
      assert !Forced(s, Cancel) && !Forced(s, CloseIncoming) && !Forced(s, CloseOutgoing);
    }
  }

  /**
   Every resting place of the relay: either the handler has finished and both
   pumps are gone, or it still waits, with each pump blocked in a read or gone
   through the context branch.
   */
  lemma RestingStates(s: State)
    requires Reachable(s)
    ensures AtRest(s) <==> AllOver(s) || Idle(s)
  {
    ReachableInv(s);
    RestingByInv(s);
  }

  /** After a received error, a run that cannot continue by itself has ended both pumps and the handler. */
  lemma ReceivedErrorEndsBothPumps(s: State)
    requires Reachable(s) && s.received.Some? && AtRest(s)
    ensures s.handler == Finished && s.up.at.Exited? && s.down.at.Exited?
    ensures !s.incomingOpen && !s.outgoingOpen
  {
    ReachableInv(s);
    RestingStates(s);
  }

  /**
   The context is closed, no error was sent, and neither pump is inside an
   iteration: each has left through the context branch or is about to.
   */
  ghost predicate Stranded(s: State) {
    && s.handler == Waiting && s.channel.None? && s.done
    && forall d :: PumpOf(s, d).at == Exited(ByContext) || PumpOf(s, d).at == Check
  }

  /** A stranded handler stays at its receive in every continuation, with both sockets left open. */
  lemma {:induction false} StrandedForever(s: State, actions: seq<Action>)
    requires Stranded(s) && Runs(s, actions)
    ensures Stranded(After(s, actions))
    ensures s.incomingOpen && s.outgoingOpen ==> After(s, actions).incomingOpen && After(s, actions).outgoingOpen
    decreases |actions|
  {
    if actions != [] {
      var t := Apply(s, actions[0]);
      forall d
        ensures PumpOf(t, d).at == Exited(ByContext) || PumpOf(t, d).at == Check
      {
        assert PumpOf(s, Up).at.Exited? || PumpOf(s, Up).at.Check?;
        assert PumpOf(s, Down).at.Exited? || PumpOf(s, Down).at.Check?;
      }
      StrandedForever(t, actions[1..]);
    }
  }

  /** Closing the parent context before either pump polls it strands the handler. */
  lemma ParentCancelCanStrand()
    ensures exists s :: Reachable(s) && Stranded(s) && s.incomingOpen && s.outgoingOpen
  {
    var s1 := Apply(START, ParentCancels);
    var s2 := Apply(s1, Move(Up, Poll));
    var s3 := Apply(s2, Move(Down, Poll));
    assert Runs(s3, []) && After(s3, []) == s3;
    assert [Move(Down, Poll)][1..] == [];
    assert Runs(s2, [Move(Down, Poll)]) && After(s2, [Move(Down, Poll)]) == s3;
    assert [Move(Up, Poll), Move(Down, Poll)][1..] == [Move(Down, Poll)];
    assert Runs(s1, [Move(Up, Poll), Move(Down, Poll)]) && After(s1, [Move(Up, Poll), Move(Down, Poll)]) == s3;
    var run := [ParentCancels, Move(Up, Poll), Move(Down, Poll)];
    assert run[1..] == [Move(Up, Poll), Move(Down, Poll)];
    assert Runs(START, run) && After(START, run) == s3;
    assert Reachable(s3);
  }

  /** The handler can finish from a reachable state exactly when it is not stranded. */
  lemma FinishesUnlessStranded(s: State)
    requires Reachable(s)
    ensures !Stranded(s) <==> exists actions :: Runs(s, actions) && After(s, actions).handler == Finished
  {
    ReachableInv(s);
    if Stranded(s) {
      forall actions | Runs(s, actions)
        ensures After(s, actions).handler != Finished
      {
        StrandedForever(s, actions);
      }
    } else {
      var actions := ToFinish(s);
    }
  }

  /** Prepends one action to a run. */
  lemma Prepend(s: State, a: Action, rest: seq<Action>)
    requires Enabled(s, a) && Runs(Apply(s, a), rest)
    ensures Runs(s, [a] + rest) && After(s, [a] + rest) == After(Apply(s, a), rest)
  {
    assert ([a] + rest)[1..] == rest;
  }

  /** Whether a pump can still leave its loop with an error. */
  predicate CanFail(s: State, d: Direction) {
    !PumpOf(s, d).at.Exited? && (s.done ==> PumpOf(s, d).at != Check)
  }

  /** The next action on a way to a finished handler. */
  function Onward(s: State): Action {
    match s.handler
    case Received => Cancel
    case Cancelled => CloseIncoming
    case IncomingClosed => CloseOutgoing
    case _ =>
      if s.channel.Some? then Receive
      else
        var d := if CanFail(s, Up) then Up else Down;
        match PumpOf(s, d).at
        case Check => Move(d, Poll)
        case Reading => Move(d, ReadFails)
        case Logging(_) => Move(d, Log)
        case Writing(_) => Move(d, WriteFails)
        case _ => Move(d, SendError)
  }

  /** Lowered by every onward action. */
  function Patience(s: State): nat {
    PointRank(s.up.at) + PointRank(s.down.at) + HandlerRank(s.handler)
    + (if s.up.at == Check then 5 else 0) + (if s.down.at == Check then 5 else 0)
  }

  lemma OnwardSteps(s: State)
    requires Inv(s) && !Stranded(s) && s.handler != Finished
    ensures Enabled(s, Onward(s))
    ensures !Stranded(Apply(s, Onward(s))) && Patience(Apply(s, Onward(s))) < Patience(s)
  {
    if s.handler == Waiting && s.channel.None? {
      assert PumpOf(s, Up) == s.up && PumpOf(s, Down) == s.down;
      assert CanFail(s, Up) || CanFail(s, Down);
      var t := Apply(s, Onward(s));
      assert t.channel.None? ==> !t.done || t.up.at != Check || t.down.at != Check;
      assert PumpOf(t, Up) == t.up && PumpOf(t, Down) == t.down;
    }
  }

  lemma {:induction false} ToFinish(s: State) returns (actions: seq<Action>)
    requires Inv(s) && !Stranded(s)
    ensures Runs(s, actions) && After(s, actions).handler == Finished
    decreases Patience(s)
  {
    if s.handler == Finished {
      actions := [];
    } else {
      var a := Onward(s);
      OnwardSteps(s);
      StepKeepsInv(s, a);
      var rest := ToFinish(Apply(s, a));
      Prepend(s, a, rest);
      actions := [a] + rest;
    }
  }

  // ---- When the handler is sure to finish ------------------------------------------

  /** An error was received, is buffered, or is about to be sent. */
  predicate Committed(s: State) {
    s.handler != Waiting || s.channel.Some? || s.up.at.Sending? || s.down.at.Sending?
  }

  lemma {:induction false} StaysCommitted(s: State, actions: seq<Action>)
    requires Committed(s) && Runs(s, actions)
    ensures Committed(After(s, actions))
    decreases |actions|
  {
    if actions != [] {
      StaysCommitted(Apply(s, actions[0]), actions[1..]);
    }
  }

  lemma CommittedEndsOver(s: State, actions: seq<Action>)
    requires Inv(s) && Committed(s) && Runs(s, actions) && AtRest(After(s, actions))
    ensures AllOver(After(s, actions))
  {
    RunKeepsInv(s, actions);
    StaysCommitted(s, actions);
    RestingByInv(After(s, actions));
  }

  /** The steps a pump has left before it reads again or leaves through the context. */
  function Ahead(at: Point): nat {
    match at
    case Logging(_) => 3
    case Writing(_) => 2
    case Check => 1
    case _ => 0
  }

  /** The next step on a way past the message in hand. */
  function Past(at: Point): Step {
    match at
    case Logging(_) => Log
    case Writing(_) => WriteOk
    case _ => Poll
  }

  lemma PastSteps(s: State, d: Direction)
    requires Inv(s) && !Committed(s) && Ahead(PumpOf(s, d).at) > 0
    ensures Enabled(s, Move(d, Past(PumpOf(s, d).at)))
    ensures var t := Apply(s, Move(d, Past(PumpOf(s, d).at)));
            !Committed(t) && Ahead(t.up.at) + Ahead(t.down.at) < Ahead(s.up.at) + Ahead(s.down.at)
  {
  }

  /** From a state that is not committed both pumps can come to rest, with the handler waiting. */
  lemma {:induction false} ToIdle(s: State) returns (actions: seq<Action>)
    requires Inv(s) && !Committed(s)
    ensures Runs(s, actions) && Idle(After(s, actions))
    decreases Ahead(s.up.at) + Ahead(s.down.at)
  {
    if Ahead(s.up.at) + Ahead(s.down.at) == 0 {
      actions := [];
    } else {
      var d := if Ahead(s.up.at) > 0 then Up else Down;
      var a := Move(d, Past(PumpOf(s, d).at));
      PastSteps(s, d);
      StepKeepsInv(s, a);
      var rest := ToIdle(Apply(s, a));
      Prepend(s, a, rest);
      actions := [a] + rest;
    }
  }

  /**
   Every run from a reachable state that comes to rest does so with handler and
   pumps finished, exactly when an error was received, is buffered or is about
   to be sent. A closed context alone does not bring that about.
   */
  lemma FinishIsCertain(s: State)
    requires Reachable(s)
    ensures (forall actions :: Runs(s, actions) && AtRest(After(s, actions)) ==> AllOver(After(s, actions)))
            <==> Committed(s)
  {
    ReachableInv(s);
    hide Inv, AtRest, Apply, Enabled, Committed;
    if Committed(s) {
      forall actions | Runs(s, actions) && AtRest(After(s, actions))
        ensures AllOver(After(s, actions))
      {
        CommittedEndsOver(s, actions);
      }
    } else {
      var actions := ToIdle(s);
      RunKeepsInv(s, actions);
      RestingByInv(After(s, actions));
      assert Runs(s, actions) && AtRest(After(s, actions)) && !AllOver(After(s, actions));
    }
  }
}
