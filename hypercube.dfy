/** The objects of the multiplexing layer: a session (one per connected
    client) with its outgoing channel, and the routing scope that holds the
    handler table, the hook slots and the live session set, fans out to every
    live session and runs each connection's dispatch loop. */
module Hypercube {
  import opened Protocol
  import opened Routing
  import opened Lifecycle
  import Strings

  /** One connected client. `outbox` is what its outgoing channel accepted,
      oldest first; `sendOpen` is false once the transport has closed that
      channel, after which sending raises. */
  class HypercubeSession {
    const id: string
    var outbox: seq<OutFrame>
    var sendOpen: bool
    var incomingCancelled: bool

    constructor (id: string, sendOpen: bool)
      ensures this.id == id && this.sendOpen == sendOpen
      ensures outbox == [] && !incomingCancelled
    {
      this.id := id;
      this.sendOpen := sendOpen;
      outbox := [];
      incomingCancelled := false;
    }

    /** `HypercubeId.compareTo`: sessions are ordered by id, lexicographically,
        and compare equal exactly when their ids are equal. */
    function CompareTo(other: HypercubeSession): (r: int)
      ensures r == 0 <==> id == other.id
      ensures r < 0 <==> Strings.LexLess(id, other.id)
      ensures r > 0 <==> Strings.LexLess(other.id, id)
    {
      Strings.CompareIsLexicographic(id, other.id);
      Strings.CompareIsLexicographic(other.id, id);
      Strings.CompareAntisymmetric(id, other.id);
      Strings.Compare(id, other.id)
    }

    /** Sends raw text. On a closed channel nothing is sent and the failure
        is NOT caught: `sent` is false exactly when it reaches the caller. */
    method Send(content: string) returns (sent: bool)
      modifies this`outbox
      ensures sent == sendOpen
      ensures outbox == old(outbox) + (if sent then [Text(content)] else [])
    {
      sent := sendOpen;
      if sent {
        outbox := outbox + [Text(content)];
      }
    }

    /** Sends the envelope of `event` and `data`; the failure on a closed
        channel is caught, so the caller never sees it. */
    method Emit(event: string, data: Option<Json>)
      modifies this`outbox
      ensures outbox == old(outbox) + (if sendOpen then [Event(event, data)] else [])
    {
      if sendOpen {
        outbox := outbox + [Event(event, data)];
      }
    }

    /** Queues a close frame (a closed channel is ignored) and cancels the
        inbound channel, so that the dispatch loop reads no further frame. */
    method Close()
      modifies this`outbox, this`incomingCancelled
      ensures outbox == old(outbox) + (if sendOpen then [CloseFrame] else [])
      ensures incomingCancelled
    {
      if sendOpen {
        outbox := outbox + [CloseFrame];
      }
      incomingCancelled := true;
    }
  }

  /** The body of the frame loop for one frame: the routed action runs;
      when the loop's own `try` catches what it raised, the parsing-error
      hook runs next. `stop` says whether the connection ends here. */
  method RouteFrame<V>(t: Table, f: Frame, decode: Decoder<V>, first: Outcome, retry: Outcome)
    returns (acts: seq<Action<V>>, stop: bool)
    ensures FrameRun(acts, stop) == RunFrame(t, f, decode, first, retry)
  {
    acts, stop := [], false;
    var a := Route(t, f, decode);
    if !a.Ignore? {
      acts := [a];
      if Caught(f, a, first) {
        if t.onParsingError.Some? {
          acts := acts + [ParsingError(t.onParsingError.value)];
          stop := retry != Returned;
        }
      } else {
        stop := first != Returned;
      }
    }
  }

  /** The frame loop of one connection: frames are processed in arrival
      order until the stream ends or a frame's user code ends the connection
      (it called `close()` or raised something the loop does not catch). */
  method RouteFrames<V>(t: Table, frames: seq<Frame>, decode: Decoder<V>, u: Runs)
    returns (acts: seq<Action<V>>)
    ensures acts == RunFrames(t, frames, decode, u, 0)
  {
    var i, stopped := 0, false;
    acts := [];
    while i < |frames| && !stopped
      invariant 0 <= i <= |frames|
      invariant stopped ==> acts == RunFrames(t, frames, decode, u, 0)
      invariant !stopped ==> acts + RunFrames(t, frames, decode, u, i) == RunFrames(t, frames, decode, u, 0)
      decreases |frames| - i
    {
      var step;
      step, stopped := RouteFrame(t, frames[i], decode, u.first(i), u.retry(i));
      RunFramesUnfold(t, frames, decode, u, i);
      ghost var rest := RunFrames(t, frames, decode, u, i + 1);
      assert RunFrames(t, frames, decode, u, i) == if stopped then step else step + rest;
      if !stopped {
        assert acts + RunFrames(t, frames, decode, u, i) == (acts + step) + rest;
      }
      acts := acts + step;
      i := i + 1;
    }
  }

  /** Every session of `sessions` got `f` appended to its outbox when its
      channel is open, and nothing otherwise. */
  twostate predicate FannedOut(sessions: set<HypercubeSession>, new f: OutFrame)
    reads sessions
  {
    forall s :: s in sessions ==> s.outbox == old(s.outbox) + (if s.sendOpen then [f] else [])
  }

  /** One routing scope: the live sessions, callbacks and functions in two
      separate maps, and four single-slot hooks. */
  class HypercubeSockets {
    var sockets: set<HypercubeSession>
    var callbacks: map<string, Handler>
    var functions: map<string, TypedHandler>
    var onOpenCallback: Option<Handler>
    var onCloseCallback: Option<Handler>
    var onParsingErrorCallback: Option<Handler>
    var onUnknownEventCallback: Option<Handler>

    constructor ()
      ensures sockets == {}
      ensures Handlers() == Table(map[], map[], None, None, None, None)
    {
      sockets := {};
      callbacks := map[];
      functions := map[];
      onOpenCallback := None;
      onCloseCallback := None;
      onParsingErrorCallback := None;
      onUnknownEventCallback := None;
    }

    /** The handler table the dispatch loop consults. */
    function Handlers(): Table
      reads this
    {
      Table(callbacks, functions, onOpenCallback, onCloseCallback,
            onParsingErrorCallback, onUnknownEventCallback)
    }

    // Each registration overwrites one entry or one slot; its modifies
    // clause names the only field it may change.

    /** `on(event, handler)`: registers a callback for data-less frames. */
    method On(event: string, handler: Handler)
      modifies this`callbacks
      ensures callbacks == old(callbacks)[event := handler]
    {
      callbacks := callbacks[event := handler];
    }

    /** `on(event, type, handler)`: registers a function for frames with data. */
    method OnFunction(event: string, shape: Shape, handler: Handler)
      modifies this`functions
      ensures functions == old(functions)[event := TypedHandler(shape, handler)]
    {
      functions := functions[event := TypedHandler(shape, handler)];
    }

    method OnOpen(handler: Handler)
      modifies this`onOpenCallback
      ensures onOpenCallback == Some(handler)
    {
      onOpenCallback := Some(handler);
    }

    method OnClose(handler: Handler)
      modifies this`onCloseCallback
      ensures onCloseCallback == Some(handler)
    {
      onCloseCallback := Some(handler);
    }

    method OnParsingError(handler: Handler)
      modifies this`onParsingErrorCallback
      ensures onParsingErrorCallback == Some(handler)
    {
      onParsingErrorCallback := Some(handler);
    }

    method OnUnknownEvent(handler: Handler)
      modifies this`onUnknownEventCallback
      ensures onUnknownEventCallback == Some(handler)
    {
      onUnknownEventCallback := Some(handler);
    }

    /** Emits one envelope to every live session. Emitting never raises, so
        every session with an open channel gets exactly one copy; the frame
        confines the change to live sessions' outboxes. */
    method Broadcast(event: string, data: Option<Json>)
      modifies sockets`outbox
      ensures FannedOut(sockets, Event(event, data))
    {
      var pending := sockets;
      while pending != {}
        invariant pending <= sockets
        invariant forall s :: s in sockets - pending ==>
          s.outbox == old(s.outbox) + (if s.sendOpen then [Event(event, data)] else [])
        invariant forall s :: s in pending ==> s.outbox == old(s.outbox)
        decreases pending
      {
        var s :| s in pending;
        s.Emit(event, data);
        pending := pending - {s};
      }
    }

    /** Sends raw text to every live session, in the set's iteration order.
        A send on a closed channel raises out of the loop: `completed` is
        false, that session and the ones after it (`skipped`) get nothing. */
    method BroadcastRaw(content: string) returns (completed: bool, ghost skipped: set<HypercubeSession>)
      modifies sockets`outbox
      ensures completed <==> forall s :: s in sockets ==> s.sendOpen
      ensures skipped <= sockets && (completed ==> skipped == {})
      ensures !completed ==> exists s :: s in sockets - skipped && !s.sendOpen
      ensures FannedOut(sockets - skipped, Text(content))
      ensures forall s :: s in skipped ==> s.outbox == old(s.outbox)
    {
      var pending := sockets;
      completed, skipped := true, {};
      while pending != {}
        invariant pending <= sockets
        invariant forall s :: s in sockets - pending ==>
          s.sendOpen && s.outbox == old(s.outbox) + [Text(content)]
        invariant forall s :: s in pending ==> s.outbox == old(s.outbox)
        decreases pending
      {
        var s :| s in pending;
        var sent := s.Send(content);
        pending := pending - {s};
        if !sent {
          completed, skipped := false, pending;
          return;
        }
      }
    }

    /** One connection as the handler is written: register the session, run
        the open hook, route the frames in order until the stream ends or
        user code ends the connection, then deregister and run the close hook
        with the session id. The trace records each run of user code and
        whether the session was live at that moment. */
    method Serve<V>(session: HypercubeSession, frames: seq<Frame>, decode: Decoder<V>,
                    open: Outcome, u: Runs)
      returns (trace: seq<Entry<V>>)
      modifies this`sockets
      ensures var c := ServeAsWritten(Handlers(), session.id, frames, decode, open, u);
        && trace == c.trace
        && sockets == (if c.registered then old(sockets) + {session} else old(sockets) - {session})
    {
      var t := Handlers();
      sockets := sockets + {session};
      trace := [];
      if onOpenCallback.Some? {
        trace := [Entry(Opened(onOpenCallback.value), session in sockets)];
        if open.Raised? {
          return;
        }
      }
      // try
      if onOpenCallback.None? || open == Returned {
        var acts := RouteFrames(t, frames, decode, u);
        var live := session in sockets;
        trace := trace + seq(|acts|, k requires 0 <= k < |acts| => Entry(Routed(acts[k]), live));
      }
      // finally
      sockets := sockets - {session};
      if onCloseCallback.Some? {
        trace := trace + [Entry(Closed(onCloseCallback.value, session.id), session in sockets)];
      }
    }
  }

  /** Values of the two shapes the scenarios below register. */
  datatype Decoded = Str(s: string) | Int(i: int)

  /** A decoder for `String::class` and `Int::class` payloads: anything else,
      and a number with a fraction, is rejected. */
  function SampleDecoder(shape: Shape, payload: Json): Option<Decoded>
  {
    if shape == Shape("String") && payload.JString? then Some(Str(payload.s))
    else if shape == Shape("Int") && payload.JNumber? && payload.n == payload.n.Floor as real then Some(Int(payload.n.Floor))
    else None
  }

  /** A callback and a function registered under one name both stay in place;
      the data field picks one. A mistyped payload reaches only the
      parsing-error hook, an unregistered name only the unknown-event hook. */
  method SameNameScenario() returns (withData: Action<Decoded>, withoutData: Action<Decoded>,
                                     mistyped: Action<Decoded>, unknown: Action<Decoded>)
    ensures withData == Function(2, Str("hello"))
    ensures withoutData == Callback(1)
    ensures mistyped == ParsingError(4)
    ensures unknown == UnknownEvent(3, "string")
  {
    var hub := new HypercubeSockets();
    hub.On("echo", 1);
    hub.OnFunction("echo", Shape("String"), 2);
    hub.OnFunction("int", Shape("Int"), 5);
    hub.OnUnknownEvent(3);
    hub.OnParsingError(4);
    var t := hub.Handlers();
    withData := Route(t, Envelope("echo", Some(JString("hello"))), SampleDecoder);
    withoutData := Route(t, Envelope("echo", None), SampleDecoder);
    mistyped := Route(t, Envelope("int", Some(JString("hello"))), SampleDecoder);
    unknown := Route(t, Envelope("string", Some(JString("hello"))), SampleDecoder);
  }

  /** A connection to a scope with an open hook (1), a `ping` callback (2)
      and a close hook (3) that receives a binary frame and one `ping`, then
      its stream ends: the open hook runs first, the session is live for both
      and gone for the close hook, and the live set ends as it began. */
  method OpenBeforeRoutingScenario() returns (trace: seq<Entry<Decoded>>, live: set<HypercubeSession>)
    ensures trace == [
      Entry(Opened(1), true),
      Entry(Routed(Callback(2)), true),
      Entry(Closed(3, "s1"), false)]
    ensures live == {}
  {
    var hub := new HypercubeSockets();
    hub.OnOpen(1);
    hub.On("ping", 2);
    hub.OnClose(3);
    var session := new HypercubeSession("s1", true);
    var frames, u := [NonText, Envelope("ping", None)], Runs(_ => Returned, _ => Returned);
    ghost var t := hub.Handlers();
    assert RunFrames(t, frames, SampleDecoder, u, 1) == [Callback(2)];
    assert RunFrames(t, frames, SampleDecoder, u, 0) == [Callback(2)];
    trace := hub.Serve(session, frames, SampleDecoder, Returned, u);
    live := hub.sockets;
  }
}
