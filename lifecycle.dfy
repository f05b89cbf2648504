/** The life of one connection: the session is registered, the open hook
    runs, frames are routed in order until the stream ends or user code ends
    the connection, then the session is deregistered and the close hook runs.
    User code stays opaque; how each run of it ended is an input. */
module Lifecycle {
  import opened Protocol
  import opened Routing

  /** What a run of user code raised: Moshi's `JsonDataException`, an
      `IOException`, or anything else (a closed channel, a cancellation). */
  datatype Failure = JsonData | IOError | OtherFailure

  /** How a run of user code ended: it returned, it called `close()` on its
      session (no further inbound frame is read), or it raised. */
  datatype Outcome = Returned | ClosedConnection | Raised(failure: Failure)

  /** How the user code of each frame ends: `first(k)` for the run frame `k`
      is routed to, `retry(k)` for the parsing-error hook the loop runs when
      it catches what that first run raised. */
  datatype Runs = Runs(first: nat -> Outcome, retry: nat -> Outcome)

  /** One run of user code during a connection. The close hook is given only
      the session id. */
  datatype Step<V> =
    | Opened(hook: Handler)
    | Routed(action: Action<V>)
    | Closed(hook: Handler, id: string)

  /** A step together with whether the session was in the live set when it
      ran. */
  datatype Entry<V> = Entry(step: Step<V>, registered: bool)

  /** The user code a connection ran, in order, and whether its session is
      still in the live set afterwards. */
  datatype Connection<V> = Connection(trace: seq<Entry<V>>, registered: bool)

  /** The first run of user code for frame `f` raised something the loop's
      own `try` blocks catch: a function handler's `JsonDataException` (the
      `try` around the typed decode also covers the handler call), or a
      `JsonDataException` or `IOException` from the parsing-error hook run
      for a `null` envelope (that hook runs inside the envelope `try`). */
  predicate Caught<V>(f: Frame, a: Action<V>, o: Outcome)
  {
    || (a.Function? && o == Raised(JsonData))
    || (f.NullEnvelope? && o.Raised? && o.failure != OtherFailure)
  }

  /** The user code one frame runs, in order, and whether the connection
      ends with it. */
  datatype FrameRun<V> = FrameRun(acts: seq<Action<V>>, ends: bool)

  /** One frame of the loop: the routed action runs; if the loop catches
      what it raised, the parsing-error hook runs next; the connection ends
      when the last of these did not return normally. */
  function RunFrame<V>(t: Table, f: Frame, decode: Decoder<V>, first: Outcome, retry: Outcome): (r: FrameRun<V>)
    ensures r.acts == [] <==> Route(t, f, decode).Ignore?
    ensures r.acts != [] ==> r.acts[0] == Route(t, f, decode)
    ensures |r.acts| <= 2
    ensures |r.acts| == 2 <==>
      !Route(t, f, decode).Ignore? && Caught(f, Route(t, f, decode), first) && t.onParsingError.Some?
    ensures |r.acts| == 2 ==> r.acts[1] == ParsingError(t.onParsingError.value)
    ensures r.ends <==>
      || (|r.acts| == 1 && !Caught(f, r.acts[0], first) && first != Returned)
      || (|r.acts| == 2 && retry != Returned)
  {
    var a := Route(t, f, decode);
    if a.Ignore? then FrameRun([], false)
    else if Caught(f, a, first) then
      var h := ParsingErrorHook<V>(t);
      if h.Ignore? then FrameRun([a], false) else FrameRun([a, h], retry != Returned)
    else FrameRun([a], first != Returned)
  }

  /** The actions the loop runs from frame `i` on. It stops at the end of the
      stream, or right after user code that ended the connection. */
  function RunFrames<V>(t: Table, frames: seq<Frame>, decode: Decoder<V>, u: Runs, i: nat): (acts: seq<Action<V>>)
    ensures i <= |frames| ==> |acts| <= 2 * (|frames| - i)
    ensures forall k :: 0 <= k < |acts| ==> !acts[k].Ignore?
    decreases |frames| - i
  {
    if i >= |frames| then []
    else
      var r := RunFrame(t, frames[i], decode, u.first(i), u.retry(i));
      if r.ends then r.acts else r.acts + RunFrames(t, frames, decode, u, i + 1)
  }

  /** The loop from frame `i` is that frame's run, then the rest of the loop
      unless the frame ended the connection. */
  lemma RunFramesUnfold<V>(t: Table, frames: seq<Frame>, decode: Decoder<V>, u: Runs, i: nat)
    requires i < |frames|
    ensures var r := RunFrame(t, frames[i], decode, u.first(i), u.retry(i));
      RunFrames(t, frames, decode, u, i) == if r.ends then r.acts else r.acts + RunFrames(t, frames, decode, u, i + 1)
  {
  }

  /** When no user code raises, the loop runs a prefix of what full dispatch
      would run, and all of it when every run returns: ending the connection
      is then the only thing that stops frame processing. */
  lemma {:induction false} RunFramesIsPrefixOfDispatch<V>(t: Table, frames: seq<Frame>, decode: Decoder<V>, u: Runs, i: nat)
    requires i <= |frames|
    ensures (forall k :: i <= k < |frames| ==> !u.first(k).Raised?) ==>
      var acts := RunFrames(t, frames, decode, u, i);
      var all := Dispatch(t, frames[i..], decode);
      |acts| <= |all| && acts == all[..|acts|]
    ensures (forall k :: i <= k < |frames| ==> u.first(k) == Returned) ==>
      RunFrames(t, frames, decode, u, i) == Dispatch(t, frames[i..], decode)
    decreases |frames| - i
  {
    if i < |frames| {
      RunFramesIsPrefixOfDispatch(t, frames, decode, u, i + 1);
      assert frames[i..][0] == frames[i];
      assert frames[i..][1..] == frames[i + 1..];
    }
  }

  /** A function handler that raises `JsonDataException` is followed by the
      parsing-error hook, and the loop goes on with the next frame unless
      that hook ends the connection. */
  lemma FunctionDataErrorRunsParsingErrorHook<V>(t: Table, frames: seq<Frame>, decode: Decoder<V>, u: Runs, i: nat)
    requires i < |frames| && Route(t, frames[i], decode).Function?
    requires u.first(i) == Raised(JsonData)
    ensures var a, rest := Route(t, frames[i], decode), RunFrames(t, frames, decode, u, i + 1);
      RunFrames(t, frames, decode, u, i) ==
        if t.onParsingError.None? then [a] + rest
        else if u.retry(i) == Returned then [a, ParsingError(t.onParsingError.value)] + rest
        else [a, ParsingError(t.onParsingError.value)]
  {
  }

  /** For an envelope that decodes to null, a parsing-error hook that raises
      `JsonDataException` or `IOException` is caught and runs a second time;
      a second raise, or any other failure, ends the connection. */
  lemma NullEnvelopeHookRetries<V>(t: Table, frames: seq<Frame>, decode: Decoder<V>, u: Runs, i: nat)
    requires i < |frames| && frames[i] == NullEnvelope && t.onParsingError.Some?
    ensures var h: Action<V>, rest := ParsingError(t.onParsingError.value), RunFrames(t, frames, decode, u, i + 1);
      RunFrames(t, frames, decode, u, i) ==
        match u.first(i)
        case Returned => [h] + rest
        case ClosedConnection => [h]
        case Raised(OtherFailure) => [h]
        case Raised(_) => if u.retry(i) == Returned then [h, h] + rest else [h, h]
  {
  }

  /** Whatever else user code raises is not caught by the loop: the
      connection ends right after it. */
  lemma UncaughtRaiseEndsConnection<V>(t: Table, frames: seq<Frame>, decode: Decoder<V>, u: Runs, i: nat)
    requires i < |frames| && !Route(t, frames[i], decode).Ignore?
    requires u.first(i).Raised? && !Caught(frames[i], Route(t, frames[i], decode), u.first(i))
    ensures RunFrames(t, frames, decode, u, i) == [Route(t, frames[i], decode)]
  {
  }

  function Live<V>(acts: seq<Action<V>>): seq<Entry<V>>
  {
    seq(|acts|, k requires 0 <= k < |acts| => Entry(Routed(acts[k]), true))
  }

  function OpenSteps<V>(t: Table): seq<Entry<V>>
  {
    if t.onOpen.Some? then [Entry(Opened(t.onOpen.value), true)] else []
  }

  function CloseSteps<V>(t: Table, id: string): seq<Entry<V>>
  {
    if t.onClose.Some? then [Entry(Closed(t.onClose.value, id), false)] else []
  }

  /** The routed part: nothing when the open hook already ended the
      connection. */
  function RoutedSteps<V>(t: Table, frames: seq<Frame>, decode: Decoder<V>, open: Outcome, u: Runs): seq<Entry<V>>
  {
    if t.onOpen.Some? && open != Returned then []
    else Live(RunFrames(t, frames, decode, u, 0))
  }

  /** The connection handler as written: the session is added and the open
      hook runs before the guarded block, so an open hook that raises skips
      the cleanup. */
  function ServeAsWritten<V>(t: Table, id: string, frames: seq<Frame>, decode: Decoder<V>, open: Outcome, u: Runs): (c: Connection<V>)
    ensures c.registered <==> t.onOpen.Some? && open.Raised?
    ensures c.registered ==> c.trace == [Entry(Opened(t.onOpen.value), true)]
    ensures t.onOpen.Some? ==> |c.trace| > 0 && c.trace[0] == Entry(Opened(t.onOpen.value), true)
    ensures !c.registered && t.onClose.Some? ==>
      |c.trace| > 0 && c.trace[|c.trace| - 1] == Entry(Closed(t.onClose.value, id), false)
  {
    if t.onOpen.Some? && open.Raised? then Connection(OpenSteps(t), true)
    else Connection(OpenSteps(t) + RoutedSteps(t, frames, decode, open, u) + CloseSteps(t, id), false)
  }

  /** The connection handler with the open hook inside the guarded block, so
      that cleanup runs however the connection ends. */
  function ServeGuarded<V>(t: Table, id: string, frames: seq<Frame>, decode: Decoder<V>, open: Outcome, u: Runs): (c: Connection<V>)
    ensures !c.registered
    ensures t.onOpen.Some? ==> |c.trace| > 0 && c.trace[0] == Entry(Opened(t.onOpen.value), true)
    ensures t.onClose.Some? ==> |c.trace| > 0 && c.trace[|c.trace| - 1] == Entry(Closed(t.onClose.value, id), false)
    ensures t.onOpen.Some? && open != Returned ==> c.trace == OpenSteps(t) + CloseSteps(t, id)
  {
    Connection(OpenSteps(t) + RoutedSteps(t, frames, decode, open, u) + CloseSteps(t, id), false)
  }

  /** The ordering a connection promises: the open hook first, the close hook
      last and with the session's id, and every step but the close hook runs
      while the session is registered. */
  ghost predicate Ordered<V>(t: Table, id: string, trace: seq<Entry<V>>)
  {
    && (t.onOpen.Some? ==> |trace| > 0 && trace[0].step == Opened(t.onOpen.value))
    && (t.onClose.Some? ==> |trace| > 0 && trace[|trace| - 1].step == Closed(t.onClose.value, id))
    && (forall k :: 0 <= k < |trace| && trace[k].step.Opened? ==> k == 0)
    && (forall k :: 0 <= k < |trace| && trace[k].step.Closed? ==> k == |trace| - 1)
    && (forall k :: 0 <= k < |trace| ==> (trace[k].registered <==> !trace[k].step.Closed?))
  }

  /** Any run of routed steps, all taken while live, sits between the open
      and the close hook in the promised order. */
  lemma OrderedAround<V>(t: Table, id: string, r: seq<Entry<V>>)
    requires forall k :: 0 <= k < |r| ==> r[k].step.Routed? && r[k].registered
    ensures Ordered(t, id, OpenSteps<V>(t) + r + CloseSteps<V>(t, id))
  {
    var o, z := OpenSteps<V>(t), CloseSteps<V>(t, id);
    var trace := o + r + z;
    forall k | 0 <= k < |trace|
      ensures trace[k].step.Opened? ==> k == 0
      ensures trace[k].step.Closed? ==> k == |trace| - 1
      ensures trace[k].registered <==> !trace[k].step.Closed?
    {
      if k < |o| {
        assert trace[k] == o[k];
      } else if k < |o| + |r| {
        assert trace[k] == r[k - |o|];
      } else {
        assert trace[k] == z[k - |o| - |r|];
      }
    }
  }

  /** With the guarded handler every connection ends deregistered, in the
      promised order, having run exactly the actions the loop chose. */
  lemma GuardedReleasesSession<V>(t: Table, id: string, frames: seq<Frame>, decode: Decoder<V>, open: Outcome, u: Runs)
    ensures var c := ServeGuarded(t, id, frames, decode, open, u);
      && !c.registered
      && Ordered(t, id, c.trace)
      && c.trace[|OpenSteps<V>(t)|..|c.trace| - |CloseSteps<V>(t, id)|] == RoutedSteps(t, frames, decode, open, u)
  {
    var r := RoutedSteps(t, frames, decode, open, u);
    assert forall k :: 0 <= k < |r| ==> r[k].step.Routed? && r[k].registered;
    OrderedAround(t, id, r);
    var o, z := OpenSteps<V>(t), CloseSteps<V>(t, id);
    assert (o + r + z)[|o|..|o + r + z| - |z|] == r;
  }

  /** The handler as written agrees with the guarded one unless the open hook
      raises. */
  lemma AsWrittenAgreesUnlessOpenRaises<V>(t: Table, id: string, frames: seq<Frame>, decode: Decoder<V>, open: Outcome, u: Runs)
    requires t.onOpen.None? || !open.Raised?
    ensures ServeAsWritten(t, id, frames, decode, open, u) == ServeGuarded(t, id, frames, decode, open, u)
  {
  }

  /** As written, an open hook that raises leaves the session in the live set
      for good and the close hook never runs, although the guarded handler
      deregisters it and runs the close hook. */
  lemma OpenHookRaiseLeaksSession<V>(t: Table, id: string, frames: seq<Frame>, decode: Decoder<V>, failure: Failure, u: Runs)
    requires t.onOpen.Some? && t.onClose.Some?
    ensures var c := ServeAsWritten(t, id, frames, decode, Raised(failure), u);
      c.registered && forall k :: 0 <= k < |c.trace| ==> !c.trace[k].step.Closed?
    ensures !ServeGuarded(t, id, frames, decode, Raised(failure), u).registered
    ensures !Ordered(t, id, ServeAsWritten(t, id, frames, decode, Raised(failure), u).trace)
  {
  }
}
