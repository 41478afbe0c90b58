// Queues between goroutines (node/rpcwebsocket.go): queueHandler, which joins two
// channels by a queue, and the pair notificationQueueHandler and outHandler, which hand
// one notification at a time to the socket.  A run is any schedule of single steps.

module Delivery {
  import opened Common

  // ---------------------------------------------------------------------------
  // queueHandler

  datatype QueueEvent =
    | In(n: int, readerReady: bool)  // a value arrives; is somebody reading `out` just then?
    | Ready                          // somebody reads `out`
    | Stop                           // `in` or `quit` is closed

  function Came(e: QueueEvent): seq<int> {
    if e.In? then [e.n] else []
  }

  /** What arrives before the handler stops. */
  function Arrivals(events: seq<QueueEvent>): seq<int> {
    if events == [] || events[0].Stop? then [] else Came(events[0]) + Arrivals(events[1..])
  }

  function Left(events: seq<QueueEvent>, stopped: bool): seq<int> {
    if stopped then [] else Arrivals(events)
  }

  lemma ArrivalsStep(came: seq<int>, events: seq<QueueEvent>)
    requires events != []
    ensures came + Came(events[0]) + Left(events[1..], events[0].Stop?) == came + Arrivals(events)
  {
  }

  function WaitingAfter(e: QueueEvent, waiting: nat): nat {
    match e
    case In(_, ready) => if waiting == 0 && ready then 0 else waiting + 1
    case Ready => if waiting == 0 then 0 else waiting - 1
    case Stop => waiting
  }

  /** How many values wait after a run that started with `waiting` of them. */
  function Backlog(events: seq<QueueEvent>, waiting: nat): nat {
    if events == [] || events[0].Stop? then waiting
    else Backlog(events[1..], WaitingAfter(events[0], waiting))
  }

  /** A reader that stays ready empties the queue. */
  lemma {:induction false} ReadersEmptyTheQueue(events: seq<QueueEvent>, waiting: nat)
    requires forall i | 0 <= i < |events| :: events[i] == Ready
    ensures Backlog(events, waiting) == if waiting <= |events| then 0 else waiting - |events|
  {
    if events != [] {
      ReadersEmptyTheQueue(events[1..], if waiting == 0 then 0 else waiting - 1);
    }
  }

  class QueueHandler {
    // The slice q: `length` cells of its backing array.
    var q: array<Option<int>>
    var length: nat

    // A nil channel is one that is not offered in the select.
    var dequeueOpen: bool
    var skipOpen: bool
    var next: Option<int>
    var stopped: bool

    // What went out.
    var delivered: seq<int>

    ghost predicate Valid()
      reads this, q
    {
      && length <= q.Length
      && (forall k | 0 <= k < length :: q[k].Some?)
      && (dequeueOpen <==> length > 0) && (skipOpen <==> length == 0)
      && (length > 0 ==> next == q[0])
    }

    ghost function Queued(): (values: seq<int>)
      requires Valid()
      reads this, q
      ensures |values| == length
    {
      seq(length, k requires 0 <= k < length && Valid() reads this, q => q[k].value)
    }

    constructor ()
      ensures Valid() && Queued() == [] && delivered == [] && !stopped && fresh(q)
    {
      q := new Option<int>[0](_ => None);
      length, dequeueOpen, skipOpen, next, stopped, delivered := 0, false, true, None, false, [];
    }

    /** append(q, n), moving to a larger array when the old one is full. */
    method Append(n: int)
      requires length <= q.Length && forall k | 0 <= k < length :: q[k].Some?
      modifies this`q, this`length, q
      ensures length == old(length) + 1 && length <= q.Length && (q == old(q) || fresh(q))
      ensures q[old(length)] == Some(n) && forall k | 0 <= k < old(length) :: q[k] == old(q[k])
    {
      if length == q.Length {
        var more := new Option<int>[2 * length + 1](_ => None);
        forall k | 0 <= k < length {
          more[k] := q[k];
        }
        q := more;
      }
      q[length] := Some(n);
      length := length + 1;
    }

    /** copy(q, q[1:]), clearing the last cell. */
    method Shift()
      requires 0 < length <= q.Length
      modifies this`length, q
      ensures length == old(length) - 1
      ensures forall k | 0 <= k < length :: q[k] == old(q[k + 1])
    {
      for i := 0 to length - 1
        modifies q
        invariant forall k | 0 <= k < i :: q[k] == old(q[k + 1])
        invariant forall k | i <= k < length :: q[k] == old(q[k])
      {
        q[i] := q[i + 1];
      }
      q[length - 1] := None;
      length := length - 1;
    }

    /** What went out, followed by what waits. */
    ghost function Through(): seq<int>
      requires Valid()
      reads this, q
    {
      delivered + Queued()
    }

    method Receive(n: int, readerReady: bool)
      requires Valid()
      modifies this`q, this`length, this`dequeueOpen, this`skipOpen, this`next, this`delivered, q
      ensures Valid() && (q == old(q) || fresh(q))
      ensures Through() == old(Through()) + [n] && old(delivered) <= delivered
      ensures length == WaitingAfter(In(n, readerReady), old(length))
      ensures old(length) == 0 && readerReady ==> Queued() == [] && delivered == old(delivered) + [n]
      ensures old(length) > 0 || !readerReady ==> Queued() == old(Queued()) + [n] && delivered == old(delivered)
    {
      if skipOpen && readerReady {
        delivered := delivered + [n];
        assert Queued() == [];
      } else {
        Append(n);
        dequeueOpen, skipOpen, next := true, false, q[0];
        assert Queued() == old(Queued()) + [n];
      }
    }

    /** Somebody reads `out`; nothing is offered while the queue is empty. */
    method Deliver()
      requires Valid()
      modifies this`length, this`dequeueOpen, this`skipOpen, this`next, this`delivered, q
      ensures Valid() && Through() == old(Through()) && old(delivered) <= delivered
      ensures length == WaitingAfter(Ready, old(length))
      ensures old(length) > 0 ==>
                Queued() == old(Queued())[1..] && delivered == old(delivered) + [old(Queued())[0]]
      ensures old(length) == 0 ==> Queued() == [] && delivered == old(delivered)
    {
      if dequeueOpen {
        delivered := delivered + [next.value];
        assert old(Queued()) == [old(Queued())[0]] + old(Queued())[1..];
        Shift();
        if length == 0 {
          dequeueOpen, skipOpen := false, true;
        } else {
          next := q[0];
        }
        assert Queued() == old(Queued())[1..];
      }
    }

    method Step(e: QueueEvent)
      requires Valid() && !stopped
      modifies this, q
      ensures Valid() && (q == old(q) || fresh(q)) && (stopped <==> e.Stop?)
      ensures Through() == old(Through()) + Came(e) && old(delivered) <= delivered
      ensures length == WaitingAfter(e, old(length))
    {
      match e
      case In(n, ready) => Receive(n, ready);
      case Ready => Deliver();
      case Stop => stopped := true;
    }

    /** Over every run, what went out followed by what waits is what came in. */
    method Run(events: seq<QueueEvent>)
      requires Valid() && !stopped
      modifies this, q
      ensures Valid() && old(delivered) <= delivered
      ensures Through() == old(Through()) + Arrivals(events)
      ensures length == Backlog(events, old(length)) && (stopped <==> Stop in events)
    {
      var rest := events;
      ghost var came := [];
      while rest != [] && !stopped
        invariant Valid() && old(delivered) <= delivered && (q == old(q) || fresh(q))
        invariant Through() == old(Through()) + came
        invariant came + Left(rest, stopped) == Arrivals(events)
        invariant Backlog(events, old(length)) == if stopped then length else Backlog(rest, length)
        invariant Stop in events <==> stopped || Stop in rest
        decreases |rest|
      {
        ArrivalsStep(came, rest);
        Rejoined(old(Through()), came, Came(rest[0]));
        came := came + Came(rest[0]);
        Step(rest[0]);
        rest := rest[1..];
      }
    }
  }

  // ---------------------------------------------------------------------------
  // notificationQueueHandler and outHandler

  /** A message for the socket; an awaited one returns a token when it is done with. */
  datatype Response = Response(msg: int, awaited: bool)

  datatype HandlerStage =
    | Selecting
    | Sending(msg: int)   // in SendMessage, the connection not looked at yet
    | Blocked(msg: int)   // in SendMessage, waiting for room in sendChan
    | Gone

  datatype OutStage =
    | Idle
    | Writing(r: Response)
    | Acking(r: Response)    // written, the token not returned yet
    | Draining
    | Refusing(r: Response)  // drained, the token not returned yet
    | Exited

  function Awaited(rs: seq<Response>): seq<int> {
    if rs == [] then []
    else Awaited(rs[..|rs| - 1]) + if rs[|rs| - 1].awaited then [rs[|rs| - 1].msg] else []
  }

  lemma {:induction false} AwaitedAppend(a: seq<Response>, b: seq<Response>)
    ensures Awaited(a + b) == Awaited(a) + Awaited(b)
  {
    if b == [] {
      assert a + b == a;
    } else {
      AwaitedAppend(a, b[..|b| - 1]);
      assert (a + b)[..|a + b| - 1] == a + b[..|b| - 1];
    }
  }

  lemma AwaitedOne(r: Response)
    ensures Awaited([r]) == if r.awaited then [r.msg] else []
  {
    assert [r][..0] == [];
  }

  lemma AwaitedTail(rs: seq<Response>)
    requires rs != []
    ensures |Awaited(rs)| == |Awaited(rs[1..])| + if rs[0].awaited then 1 else 0
    ensures forall m | m in Awaited(rs[1..]) :: m in Awaited(rs)
    ensures rs[0].awaited ==> rs[0].msg in Awaited(rs)
  {
    AwaitedOne(rs[0]);
    AwaitedAppend([rs[0]], rs[1..]);
    assert rs == [rs[0]] + rs[1..];
  }

  /** The notification the handler has taken but not put into sendChan. */
  function Held(h: HandlerStage): seq<int> {
    match h
    case Sending(m) => [m]
    case Blocked(m) => [m]
    case _ => []
  }

  /** The notification the out handler is about to write. */
  function InHand(o: OutStage): seq<int> {
    if o.Writing? && o.r.awaited then [o.r.msg] else []
  }

  /** Tokens the out handler owes. */
  function Owed(o: OutStage): nat {
    if (o.Writing? || o.Acking? || o.Refusing?) && o.r.awaited then 1 else 0
  }

  predicate Winding(o: OutStage) {
    o.Draining? || o.Refusing? || o.Exited?
  }

  /** What is held, in the channel and in hand is the last of what was handed on, and, while
      the client is connected, all that is not yet written of it. */
  ghost predicate InFlight(received: seq<int>, wire: seq<int>, handed: nat, held: seq<int>, awaited: seq<int>,
                           inHand: seq<int>, disconnected: bool)
  {
    && wire <= received && |wire| + |held| + |awaited| + |inHand| <= handed <= |received|
    && (forall m | m in held || m in awaited || m in inHand :: m == received[handed - 1])
    && (!disconnected ==> |wire| + |held| + |awaited| + |inHand| == handed)
  }

  lemma FewerInFlight(received: seq<int>, wire: seq<int>, handed: nat, held: seq<int>, awaited: seq<int>,
                      fewer: seq<int>, inHand: seq<int>)
    requires InFlight(received, wire, handed, held, awaited, inHand, true)
    requires |fewer| <= |awaited| && forall m | m in fewer :: m in awaited
    ensures InFlight(received, wire, handed, held, fewer, inHand, true)
  {
  }

  lemma OneMoreInFlight(received: seq<int>, wire: seq<int>, handed: nat, disconnected: bool, msg: int)
    requires InFlight(received, wire, handed, [], [], [], disconnected) && handed == |received|
    ensures InFlight(received + [msg], wire, handed + 1, [msg], [], [], disconnected)
  {
  }

  lemma OneMoreReceived(received: seq<int>, wire: seq<int>, handed: nat, held: seq<int>, awaited: seq<int>,
                        inHand: seq<int>, disconnected: bool, msg: int)
    requires InFlight(received, wire, handed, held, awaited, inHand, disconnected)
    ensures InFlight(received + [msg], wire, handed, held, awaited, inHand, disconnected)
  {
  }

  lemma AllInFlight(received: seq<int>, wire: seq<int>, handed: nat, held: seq<int>, awaited: seq<int>,
                    inHand: seq<int>)
    requires InFlight(received, wire, handed, held, awaited, inHand, false) && |held| + |awaited| + |inHand| <= 1
    ensures held + awaited + inHand == received[|wire|..handed]
  {
    var way, last := held + awaited + inHand, received[|wire|..handed];
    assert |way| == |last| <= 1;
    if way != [] {
      assert way[0] in held || way[0] in awaited || way[0] in inHand;
      assert way[0] == received[handed - 1] == last[0];
    }
  }

  datatype Action =
    | Offer(msg: int)
    | OtherSend(msg: int)
    | Disconnect
    | TakeNtfn
    | TakeToken
    | LookAndSend
    | Push
    | HandlerQuit
    | TakeSend
    | Write
    | FailWrite
    | Ack
    | OutQuit
    | DrainOne
    | Refuse

  /** The two goroutines, their channels and the connection. */
  datatype SenderState = SenderState(disconnected: bool, ntfnChan: seq<int>, pending: seq<int>, waiting: bool,
                                     sentChan: seq<bool>, sendChan: seq<Response>, handler: HandlerStage,
                                     out: OutStage, received: seq<int>, wire: seq<int>)

  /** A step of the notification handler or of who feeds it; one that cannot happen changes
      nothing. */
  ghost predicate QueueStepped(s: SenderState, a: Action, t: SenderState) {
    match a
    case Offer(msg) => t == if s.ntfnChan == [] then s.(ntfnChan := [msg]) else s
    case TakeNtfn =>
      if s.handler != Selecting || s.ntfnChan == [] then t == s
      else
        var msg := s.ntfnChan[0];
        var rest := s.(ntfnChan := s.ntfnChan[1..], received := s.received + [msg]);
        t == if s.waiting then rest.(pending := s.pending + [msg])
             else rest.(waiting := true, handler := Sending(msg))
    case TakeToken =>
      if s.handler != Selecting || s.sentChan == [] then t == s
      else
        var rest := s.(sentChan := s.sentChan[1..]);
        t == if s.pending == [] then rest.(waiting := false)
             else rest.(pending := s.pending[1..], handler := Sending(s.pending[0]))
    case _ => t == s
  }

  /** A step of SendMessage, of another sender or of the network. */
  ghost predicate SendStepped(s: SenderState, a: Action, sendBuffer: nat, t: SenderState) {
    match a
    case OtherSend(msg) =>
      t == if |s.sendChan| < sendBuffer then s.(sendChan := s.sendChan + [Response(msg, false)]) else s
    case Disconnect => t == s.(disconnected := true)
    case LookAndSend =>
      t == if !s.handler.Sending? then s
           else if s.disconnected then s.(sentChan := s.sentChan + [false], handler := Selecting)
           else s.(handler := Blocked(s.handler.msg))
    case Push =>
      t == if s.handler.Blocked? && |s.sendChan| < sendBuffer
        then s.(sendChan := s.sendChan + [Response(s.handler.msg, true)], handler := Selecting) else s
    case HandlerQuit =>
      t == if s.handler == Selecting && s.disconnected then s.(ntfnChan := [], sentChan := [], handler := Gone) else s
    case _ => t == s
  }

  /** A step of the out handler. */
  ghost predicate OutStepped(s: SenderState, a: Action, t: SenderState) {
    match a
    case TakeSend =>
      t == if s.out == Idle && s.sendChan != []
        then s.(out := Writing(s.sendChan[0]), sendChan := s.sendChan[1..]) else s
    case Write =>
      t == if s.out.Writing?
        then s.(out := Acking(s.out.r), wire := s.wire + if s.out.r.awaited then [s.out.r.msg] else []) else s
    case FailWrite => t == if s.out.Writing? then s.(out := Draining, disconnected := true) else s
    case Ack =>
      t == if s.out.Acking?
        then s.(out := Idle, sentChan := s.sentChan + if s.out.r.awaited then [true] else []) else s
    case OutQuit => t == if s.out == Idle && s.disconnected then s.(out := Draining) else s
    case DrainOne =>
      t == if s.out != Draining then s
           else if s.sendChan == [] then s.(out := Exited)
           else s.(out := Refusing(s.sendChan[0]), sendChan := s.sendChan[1..])
    case Refuse =>
      t == if s.out.Refusing?
        then s.(out := Draining, sentChan := s.sentChan + if s.out.r.awaited then [false] else []) else s
    case _ => t == s
  }

  ghost predicate Stepped(s: SenderState, a: Action, sendBuffer: nat, t: SenderState) {
    if a.Offer? || a.TakeNtfn? || a.TakeToken? then QueueStepped(s, a, t)
    else if a.OtherSend? || a.Disconnect? || a.LookAndSend? || a.Push? || a.HandlerQuit? then
      SendStepped(s, a, sendBuffer, t)
    else OutStepped(s, a, t)
  }

  /** The states before every step of a schedule and after the last. */
  ghost predicate Trace(states: seq<SenderState>, schedule: seq<Action>, sendBuffer: nat) {
    |states| == |schedule| + 1 && forall i | 0 <= i < |schedule| :: SteppedAt(states, schedule, sendBuffer, i)
  }

  ghost predicate SteppedAt(states: seq<SenderState>, schedule: seq<Action>, sendBuffer: nat, i: nat)
    requires i < |schedule| && i + 1 < |states|
  {
    Stepped(states[i], schedule[i], sendBuffer, states[i + 1])
  }

  lemma TraceOn(states: seq<SenderState>, schedule: seq<Action>, sendBuffer: nat, i: nat, next: SenderState)
    requires i < |schedule| && Trace(states, schedule[..i], sendBuffer)
    requires Stepped(states[i], schedule[i], sendBuffer, next)
    ensures Trace(states + [next], schedule[..i + 1], sendBuffer)
  {
    var more, longer := states + [next], schedule[..i + 1];
    forall j | 0 <= j < |longer|
      ensures SteppedAt(more, longer, sendBuffer, j)
    {
      if j < i {
        assert SteppedAt(states, schedule[..i], sendBuffer, j);
      }
    }
  }

  lemma NothingUnwritten(s: SenderState, a: Action, sendBuffer: nat, t: SenderState)
    requires Stepped(s, a, sendBuffer, t)
    ensures s.received <= t.received && s.wire <= t.wire
  {
  }

  const AT_REST := SenderState(false, [], [], false, [], [], Selecting, Idle, [], [])

  /** A notification is offered, written and acknowledged. */
  function Journey(msg: int): seq<Action> {
    [Offer(msg), TakeNtfn, LookAndSend, Push, TakeSend, Write, Ack, TakeToken]
  }

  lemma NotificationIsSent(states: seq<SenderState>, msg: int, sendBuffer: nat)
    requires Trace(states, Journey(msg), sendBuffer) && states[0] == AT_REST && 0 < sendBuffer
    ensures states[4]
         == AT_REST.(waiting := true, sendChan := [Response(msg, true)], received := [msg])
  {
    var way := Journey(msg);
    assert SteppedAt(states, way, sendBuffer, 0);
    assert SteppedAt(states, way, sendBuffer, 1);
    assert SteppedAt(states, way, sendBuffer, 2);
    assert SteppedAt(states, way, sendBuffer, 3);
  }

  /** At the end of it the message is written and the sender is at rest. */
  lemma NotificationIsWritten(states: seq<SenderState>, msg: int, sendBuffer: nat)
    requires Trace(states, Journey(msg), sendBuffer) && states[0] == AT_REST && 0 < sendBuffer
    ensures states[8] == AT_REST.(received := [msg], wire := [msg])
  {
    NotificationIsSent(states, msg, sendBuffer);
    var way := Journey(msg);
    assert SteppedAt(states, way, sendBuffer, 4);
    assert SteppedAt(states, way, sendBuffer, 5);
    assert SteppedAt(states, way, sendBuffer, 6);
    assert SteppedAt(states, way, sendBuffer, 7);
  }

  /** A client that disconnects with a notification in the channel. */
  function CutShort(msg: int): seq<Action> {
    [Disconnect, OutQuit, DrainOne, Refuse, DrainOne, TakeToken, HandlerQuit]
  }

  lemma NotificationIsRefused(states: seq<SenderState>, msg: int, sendBuffer: nat)
    requires Trace(states, CutShort(msg), sendBuffer)
    requires states[0] == AT_REST.(waiting := true, sendChan := [Response(msg, true)], received := [msg])
    ensures states[4]
         == AT_REST.(disconnected := true, waiting := true, sentChan := [false], out := Draining, received := [msg])
  {
    var way := CutShort(msg);
    assert SteppedAt(states, way, sendBuffer, 0);
    assert SteppedAt(states, way, sendBuffer, 1);
    assert SteppedAt(states, way, sendBuffer, 2);
    assert SteppedAt(states, way, sendBuffer, 3);
  }

  /** The notification is drained and its token returned, and both goroutines come to their
      end. */
  lemma NotificationIsDrained(states: seq<SenderState>, msg: int, sendBuffer: nat)
    requires Trace(states, CutShort(msg), sendBuffer)
    requires states[0] == AT_REST.(waiting := true, sendChan := [Response(msg, true)], received := [msg])
    ensures states[7].handler == Gone && states[7].out == Exited && !states[7].waiting
    ensures states[7].sendChan == [] && states[7].wire == [] && states[7].received == [msg]
  {
    NotificationIsRefused(states, msg, sendBuffer);
    var way := CutShort(msg);
    assert SteppedAt(states, way, sendBuffer, 4);
    assert SteppedAt(states, way, sendBuffer, 5);
    assert SteppedAt(states, way, sendBuffer, 6);
  }

  class NtfnSender {
    const sendBuffer: nat

    var disconnected: bool
    var ntfnChan: seq<int>
    var pendingNtfns: seq<int>
    var waiting: bool
    var ntfnSentChan: seq<bool>
    var sendChan: seq<Response>
    var handler: HandlerStage
    var out: OutStage

    // What was taken from ntfnChan, and what was written of it to the socket.
    var received: seq<int>
    var wire: seq<int>

    // How many notifications were passed to SendMessage, and whether a failed write kept
    // its token.
    ghost var handed: nat
    ghost var lost: bool

    ghost function Now(): SenderState
      reads this
    {
      SenderState(disconnected, ntfnChan, pendingNtfns, waiting, ntfnSentChan, sendChan, handler, out, received, wire)
    }

    /** Tokens that are on their way back to the handler. */
    ghost function Outstanding(): nat
      reads this`handler, this`sendChan, this`out, this`ntfnSentChan
    {
      |Held(handler)| + |Awaited(sendChan)| + Owed(out) + |ntfnSentChan|
    }

    /** At most one token is outstanding, and one is exactly when the handler waits, but
        for a token lost with the connection. */
    ghost predicate TokensOk()
      reads this`handler, this`sendChan, this`out, this`ntfnSentChan, this`lost, this`waiting, this`disconnected
    {
      && Outstanding() + (if lost then 1 else 0) <= (if waiting then 1 else 0)
      && (handler != Gone ==> Outstanding() + (if lost then 1 else 0) == if waiting then 1 else 0)
      && (lost || handler == Gone || Winding(out) ==> disconnected)
    }

    /** What waits is what was received and not yet passed to SendMessage. */
    ghost predicate PendingOk()
      reads this`handed, this`pendingNtfns, this`received, this`waiting
    {
      && handed <= |received| && pendingNtfns == received[handed..]
      && (!waiting ==> handed == |received|)
    }

    /** A notification on its way is the last one passed to SendMessage, and everything
        before it has been written, unless the connection is gone. */
    ghost predicate FlightOk()
      reads this`received, this`wire, this`handed, this`handler, this`sendChan, this`out, this`disconnected
    {
      && InFlight(received, wire, handed, Held(handler), Awaited(sendChan), InHand(out), disconnected)
      && (handler.Blocked? || InHand(out) != [] || (Awaited(sendChan) != [] && !Winding(out)) ==> |wire| + 1 == handed)
    }

    ghost predicate Valid()
      reads this
    {
      TokensOk() && PendingOk() && FlightOk()
    }

    constructor (sendBuffer: nat)
      ensures Valid() && received == [] && wire == [] && handler == Selecting && out == Idle && !disconnected
    {
      this.sendBuffer := sendBuffer;
      disconnected, ntfnChan, pendingNtfns, waiting, ntfnSentChan := false, [], [], false, [];
      sendChan, handler, out, received, wire, handed, lost := [], Selecting, Idle, [], [], 0, false;
    }

    // ----- other goroutines

    method Disconnect()
      requires TokensOk() && FlightOk()
      modifies this`disconnected
      ensures TokensOk() && FlightOk() && disconnected
      ensures SendStepped(old(Now()), Action.Disconnect, sendBuffer, Now())
    {
      disconnected := true;
    }

    /** A response that is not a notification. */
    method OtherSend(msg: int)
      requires TokensOk() && FlightOk() && |sendChan| < sendBuffer
      modifies this`sendChan
      ensures TokensOk() && FlightOk() && sendChan == old(sendChan) + [Response(msg, false)]
      ensures SendStepped(old(Now()), Action.OtherSend(msg), sendBuffer, Now())
    {
      AwaitedAppend(sendChan, [Response(msg, false)]);
      AwaitedOne(Response(msg, false));
      sendChan := sendChan + [Response(msg, false)];
    }

    // ----- notificationQueueHandler

    method HandOn(msg: int)
      requires Valid() && handler == Selecting && !waiting
      modifies this`waiting, this`handler, this`received, this`handed
      ensures Valid() && received == old(received) + [msg] && handler == Sending(msg) && waiting
    {
      assert Held(handler) == [] && Awaited(sendChan) == [] && InHand(out) == [];
      OneMoreInFlight(received, wire, handed, disconnected, msg);
      received := received + [msg];
      handed := handed + 1;
      handler := Sending(msg);
      waiting := true;
    }

    method Enqueue(msg: int)
      requires Valid() && waiting
      modifies this`pendingNtfns, this`received
      ensures Valid() && received == old(received) + [msg] && pendingNtfns == old(pendingNtfns) + [msg]
    {
      OneMoreReceived(received, wire, handed, Held(handler), Awaited(sendChan), InHand(out), disconnected, msg);
      received := received + [msg];
      pendingNtfns := pendingNtfns + [msg];
    }

    method TakeNtfn()
      requires Valid() && handler == Selecting && ntfnChan != []
      modifies this`ntfnChan, this`pendingNtfns, this`waiting, this`handler, this`received, this`handed
      ensures Valid() && ntfnChan == old(ntfnChan)[1..] && received == old(received) + [old(ntfnChan)[0]]
      ensures handler == if old(waiting) then Selecting else Sending(old(ntfnChan)[0])
      ensures waiting && pendingNtfns == old(pendingNtfns) + if old(waiting) then [old(ntfnChan)[0]] else []
      ensures QueueStepped(old(Now()), Action.TakeNtfn, Now())
    {
      var msg := ntfnChan[0];
      ntfnChan := ntfnChan[1..];
      if !waiting {
        HandOn(msg);
      } else {
        Enqueue(msg);
      }
    }

    method TakeToken()
      requires Valid() && handler == Selecting && ntfnSentChan != []
      modifies this`ntfnSentChan, this`pendingNtfns, this`waiting, this`handler, this`handed
      ensures Valid() && ntfnSentChan == []
      ensures handler == if old(pendingNtfns) == [] then Selecting else Sending(old(pendingNtfns)[0])
      ensures pendingNtfns == if old(pendingNtfns) == [] then [] else old(pendingNtfns)[1..]
      ensures waiting == (old(waiting) && old(pendingNtfns) != [])
      ensures QueueStepped(old(Now()), Action.TakeToken, Now())
    {
      ntfnSentChan := ntfnSentChan[1..];
      if pendingNtfns == [] {
        waiting := false;
      } else {
        var msg := pendingNtfns[0];
        pendingNtfns := pendingNtfns[1..];
        handed := handed + 1;
        handler := Sending(msg);
      }
    }

    /** SendMessage looks at the connection. */
    method LookAndSend()
      requires TokensOk() && FlightOk() && handler.Sending?
      modifies this`handler, this`ntfnSentChan
      ensures TokensOk() && FlightOk() && old(ntfnSentChan) == []
      ensures ntfnSentChan == if disconnected then [false] else []
      ensures handler == if disconnected then Selecting else Blocked(old(handler).msg)
      ensures SendStepped(old(Now()), Action.LookAndSend, sendBuffer, Now())
    {
      if disconnected {
        ntfnSentChan := ntfnSentChan + [false];
        handler := Selecting;
      } else {
        handler := Blocked(handler.msg);
      }
    }

    /** There is room in sendChan. */
    method Push()
      requires TokensOk() && FlightOk() && handler.Blocked? && |sendChan| < sendBuffer
      modifies this`handler, this`sendChan
      ensures TokensOk() && FlightOk() && handler == Selecting
      ensures sendChan == old(sendChan) + [Response(old(handler).msg, true)]
      ensures SendStepped(old(Now()), Action.Push, sendBuffer, Now())
    {
      AwaitedAppend(sendChan, [Response(handler.msg, true)]);
      AwaitedOne(Response(handler.msg, true));
      sendChan := sendChan + [Response(handler.msg, true)];
      handler := Selecting;
    }

    method HandlerQuit()
      requires TokensOk() && FlightOk() && handler == Selecting && disconnected
      modifies this`handler, this`ntfnChan, this`ntfnSentChan
      ensures TokensOk() && FlightOk() && handler == Gone && ntfnChan == [] && ntfnSentChan == []
      ensures SendStepped(old(Now()), Action.HandlerQuit, sendBuffer, Now())
    {
      ntfnChan, ntfnSentChan := [], [];
      handler := Gone;
    }

    // ----- outHandler

    method TakeSend()
      requires TokensOk() && FlightOk() && out == Idle && sendChan != []
      modifies this`out, this`sendChan
      ensures TokensOk() && FlightOk() && out == Writing(old(sendChan)[0]) && sendChan == old(sendChan)[1..]
      ensures OutStepped(old(Now()), Action.TakeSend, Now())
    {
      AwaitedTail(sendChan);
      out := Writing(sendChan[0]);
      sendChan := sendChan[1..];
    }

    /** Writes to the socket. */
    method Write()
      requires TokensOk() && FlightOk() && out.Writing?
      modifies this`out, this`wire
      ensures TokensOk() && FlightOk() && out == Acking(old(out).r)
      ensures wire == old(wire) + if old(out).r.awaited then [old(out).r.msg] else []
      ensures OutStepped(old(Now()), Action.Write, Now())
    {
      if out.r.awaited {
        assert out.r.msg in InHand(out);
        wire := wire + [out.r.msg];
      }
      out := Acking(out.r);
    }

    /** An error ends the connection, and the token of the message is not returned. */
    method FailWrite()
      requires TokensOk() && FlightOk() && out.Writing?
      modifies this`out, this`lost, this`disconnected
      ensures TokensOk() && FlightOk() && out == Draining && disconnected
      ensures OutStepped(old(Now()), Action.FailWrite, Now())
    {
      disconnected := true;
      if out.r.awaited {
        lost := true;
      }
      out := Draining;
    }

    method Ack()
      requires TokensOk() && FlightOk() && out.Acking?
      modifies this`out, this`ntfnSentChan
      ensures TokensOk() && FlightOk() && out == Idle
      ensures old(out).r.awaited ==> old(ntfnSentChan) == [] && ntfnSentChan == [true]
      ensures !old(out).r.awaited ==> ntfnSentChan == old(ntfnSentChan)
      ensures OutStepped(old(Now()), Action.Ack, Now())
    {
      if out.r.awaited {
        ntfnSentChan := ntfnSentChan + [true];
      }
      out := Idle;
    }

    method OutQuit()
      requires TokensOk() && FlightOk() && out == Idle && disconnected
      modifies this`out
      ensures TokensOk() && FlightOk() && out == Draining
      ensures OutStepped(old(Now()), Action.OutQuit, Now())
    {
      out := Draining;
    }

    method DrainOne()
      requires TokensOk() && FlightOk() && out == Draining
      modifies this`out, this`sendChan
      ensures TokensOk() && FlightOk() && out == if old(sendChan) == [] then Exited else Refusing(old(sendChan)[0])
      ensures sendChan == if old(sendChan) == [] then [] else old(sendChan)[1..]
      ensures OutStepped(old(Now()), Action.DrainOne, Now())
    {
      if sendChan == [] {
        out := Exited;
      } else {
        DrainNext();
      }
    }

    method DrainNext()
      requires TokensOk() && FlightOk() && out == Draining && sendChan != []
      modifies this`out, this`sendChan
      ensures TokensOk() && FlightOk() && out == Refusing(old(sendChan)[0]) && sendChan == old(sendChan)[1..]
    {
      AwaitedTail(sendChan);
      FewerInFlight(received, wire, handed, Held(handler), Awaited(sendChan), Awaited(sendChan[1..]), []);
      out := Refusing(sendChan[0]);
      sendChan := sendChan[1..];
    }

    method Refuse()
      requires TokensOk() && FlightOk() && out.Refusing?
      modifies this`out, this`ntfnSentChan
      ensures TokensOk() && FlightOk() && out == Draining
      ensures old(out).r.awaited ==> old(ntfnSentChan) == [] && ntfnSentChan == [false]
      ensures !old(out).r.awaited ==> ntfnSentChan == old(ntfnSentChan)
      ensures OutStepped(old(Now()), Action.Refuse, Now())
    {
      if out.r.awaited {
        ntfnSentChan := ntfnSentChan + [false];
      }
      out := Draining;
    }

    // ----- whole runs

    method SendStep(a: Action)
      requires TokensOk() && FlightOk()
      modifies this`disconnected, this`ntfnChan, this`ntfnSentChan, this`sendChan, this`handler
      ensures TokensOk() && FlightOk() && SendStepped(old(Now()), a, sendBuffer, Now())
    {
      match a
      case OtherSend(msg) => if |sendChan| < sendBuffer { OtherSend(msg); }
      case Disconnect => Disconnect();
      case LookAndSend => if handler.Sending? { LookAndSend(); }
      case Push => if handler.Blocked? && |sendChan| < sendBuffer { Push(); }
      case HandlerQuit => if handler == Selecting && disconnected { HandlerQuit(); }
      case _ =>
    }

    method WriteStep(a: Action)
      requires TokensOk() && FlightOk() && !a.Ack? && !a.OutQuit? && !a.DrainOne? && !a.Refuse?
      modifies this`disconnected, this`sendChan, this`out, this`wire, this`lost
      ensures TokensOk() && FlightOk() && OutStepped(old(Now()), a, Now())
    {
      match a
      case TakeSend => if out == Idle && sendChan != [] { TakeSend(); }
      case Write => if out.Writing? { Write(); }
      case FailWrite => if out.Writing? { FailWrite(); }
      case _ =>
    }

    method OutStep(a: Action)
      requires TokensOk() && FlightOk()
      modifies this`disconnected, this`ntfnSentChan, this`sendChan, this`out, this`wire, this`lost
      ensures TokensOk() && FlightOk() && OutStepped(old(Now()), a, Now())
    {
      if a.Ack? {
        if out.Acking? { Ack(); }
      } else if a.OutQuit? {
        if out == Idle && disconnected { OutQuit(); }
      } else if a.DrainOne? {
        if out == Draining { DrainOne(); }
      } else if a.Refuse? {
        if out.Refusing? { Refuse(); }
      } else {
        WriteStep(a);
      }
    }

    method QueueStep(a: Action)
      requires Valid()
      modifies this`ntfnChan, this`pendingNtfns, this`waiting, this`ntfnSentChan, this`handler,
               this`received, this`handed
      ensures Valid() && QueueStepped(old(Now()), a, Now())
    {
      match a
      case Offer(msg) => if ntfnChan == [] { ntfnChan := [msg]; }
      case TakeNtfn => if handler == Selecting && ntfnChan != [] { TakeNtfn(); }
      case TakeToken => if handler == Selecting && ntfnSentChan != [] { TakeToken(); }
      case _ =>
    }

    /** One step of any goroutine; one that cannot happen now changes nothing. */
    method Step(a: Action)
      requires Valid()
      modifies this
      ensures Valid() && Stepped(old(Now()), a, sendBuffer, Now())
    {
      if a.Offer? || a.TakeNtfn? || a.TakeToken? {
        QueueStep(a);
      } else if a.OtherSend? || a.Disconnect? || a.LookAndSend? || a.Push? || a.HandlerQuit? {
        SendStep(a);
      } else {
        OutStep(a);
      }
    }

    /** Every schedule keeps the invariant and goes step by step. */
    method Run(schedule: seq<Action>) returns (ghost states: seq<SenderState>)
      requires Valid()
      modifies this
      ensures Valid() && Trace(states, schedule, sendBuffer)
      ensures states[0] == old(Now()) && states[|schedule|] == Now()
      ensures old(received) <= received && old(wire) <= wire
    {
      states := [Now()];
      for i := 0 to |schedule|
        invariant Valid() && Trace(states, schedule[..i], sendBuffer)
        invariant states[0] == old(Now()) && states[i] == Now()
        invariant old(received) <= received && old(wire) <= wire
      {
        Step(schedule[i]);
        NothingUnwritten(states[i], schedule[i], sendBuffer, Now());
        TraceOn(states, schedule, sendBuffer, i, Now());
        states := states + [Now()];
      }
      assert schedule[..|schedule|] == schedule;
    }

    /** In every state of every run, what was written is an initial part of what was
        received: nothing is skipped, doubled or out of order. */
    lemma WrittenInOrder()
      requires Valid()
      ensures wire <= received
    {
    }

    /** While the client is connected nothing is lost: what was written, the at most one
        notification on its way, and what is pending make up what was received. */
    lemma NothingLostWhileConnected()
      requires Valid() && !disconnected
      ensures received == wire + (Held(handler) + Awaited(sendChan) + InHand(out)) + pendingNtfns
      ensures |Held(handler) + Awaited(sendChan) + InHand(out)| <= 1
    {
      AllInFlight(received, wire, handed, Held(handler), Awaited(sendChan), InHand(out));
      assert received == received[..|wire|] + received[|wire|..handed] + received[handed..];
    }

    /** A connected client at rest has been sent everything. */
    lemma AtRestAllIsWritten()
      requires Valid() && !disconnected && out == Idle && sendChan == [] && handler == Selecting && ntfnSentChan == []
      ensures wire == received && !waiting
    {
    }

    /** Whoever is about to return a token finds the channel of capacity one empty. */
    lemma TokensNeverBlock()
      requires Valid()
      requires ((out.Acking? || out.Refusing?) && out.r.awaited) || handler.Sending?
      ensures ntfnSentChan == []
    {
    }
  }
}
