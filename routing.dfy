/** The handler table of one routing scope and the per-frame routing rule.
    User code is never run here: routing only says which registered handler
    or hook a frame leads to, and with what argument. */
module Routing {
  import opened Protocol

  /** Identity of a handler lambda supplied by the application. */
  type Handler = nat

  /** The class given to `on(event, type, handler)`: the target of the typed
      payload decode. */
  datatype Shape = Shape(name: string)

  /** A function registration: the decode target and the handler. */
  datatype TypedHandler = TypedHandler(shape: Shape, handler: Handler)

  /** Everything `HypercubeSockets` holds apart from the live session set:
      callbacks and functions live in two separate maps, and each hook is a
      single overwrite slot. */
  datatype Table = Table(
    callbacks: map<string, Handler>,
    functions: map<string, TypedHandler>,
    onOpen: Option<Handler>,
    onClose: Option<Handler>,
    onParsingError: Option<Handler>,
    onUnknownEvent: Option<Handler>)

  /** What one inbound frame leads to. `Ignore` runs no user code: the frame
      is not a text frame, or the hook it leads to is not set. */
  datatype Action<V> =
    | Ignore
    | ParsingError(hook: Handler)
    | UnknownEvent(hook: Handler, event: string)
    | Function(handler: Handler, value: V)
    | Callback(handler: Handler)

  /** The typed payload decode: `None` when the decoder returns null or
      rejects the value. */
  type Decoder<V> = (Shape, Json) -> Option<V>

  function ParsingErrorHook<V>(t: Table): Action<V>
  {
    if t.onParsingError.Some? then ParsingError(t.onParsingError.value) else Ignore
  }

  function UnknownEventHook<V>(t: Table, event: string): Action<V>
  {
    if t.onUnknownEvent.Some? then UnknownEvent(t.onUnknownEvent.value, event) else Ignore
  }

  /** The payload of a data-carrying frame for a registered function fails to
      decode into that function's shape. */
  ghost predicate PayloadRejected<V>(t: Table, f: Frame, decode: Decoder<V>)
  {
    && f.Envelope? && HasData(f.data) && f.event in t.functions
    && decode(t.functions[f.event].shape, f.data.value).None?
  }

  /** The per-frame routing rule of the dispatch loop. Its contract says that
      every outcome is justified by the frame and the table: handlers run only
      when registered under the path the data field selects, the function gets
      exactly the decoded payload, and each hook runs only for its own kind of
      failure and only when set. */
  function Route<V>(t: Table, f: Frame, decode: Decoder<V>): (a: Action<V>)
    ensures f.NonText? ==> a.Ignore?
    ensures a.ParsingError? ==>
      && t.onParsingError == Some(a.hook)
      && (f.Malformed? || f.NullEnvelope? || PayloadRejected(t, f, decode))
    ensures a.UnknownEvent? ==>
      && t.onUnknownEvent == Some(a.hook)
      && f.Envelope? && a.event == f.event
      && (if HasData(f.data) then f.event !in t.functions else f.event !in t.callbacks)
    ensures a.Function? ==>
      && f.Envelope? && HasData(f.data) && f.event in t.functions
      && t.functions[f.event].handler == a.handler
      && decode(t.functions[f.event].shape, f.data.value) == Some(a.value)
    ensures a.Callback? ==>
      f.Envelope? && !HasData(f.data) && f.event in t.callbacks && t.callbacks[f.event] == a.handler
  {
    match f
    case NonText => Ignore
    case Malformed => ParsingErrorHook(t)
    case NullEnvelope => ParsingErrorHook(t)
    case Envelope(event, data) =>
      if HasData(data) then
        if event !in t.functions then UnknownEventHook(t, event)
        else
          match decode(t.functions[event].shape, data.value)
          case None => ParsingErrorHook(t)
          case Some(v) => Function(t.functions[event].handler, v)
      else if event in t.callbacks then Callback(t.callbacks[event])
      else UnknownEventHook(t, event)
  }

  /** A frame whose envelope does not decode, or decodes to null, leads to
      the parsing-error hook alone, whatever the table holds for any event. */
  lemma MalformedOnlyReachesParsingErrorHook<V>(t: Table, decode: Decoder<V>)
    ensures Route(t, Malformed, decode) == ParsingErrorHook(t)
    ensures Route(t, NullEnvelope, decode) == ParsingErrorHook(t)
    ensures t.onParsingError.None? ==> Route(t, Malformed, decode).Ignore? && Route(t, NullEnvelope, decode).Ignore?
  {
  }

  /** No entry in the map the data field selects leads to the unknown-event
      hook with that exact event name, and to no handler. */
  lemma MissingEntryReachesUnknownEventHook<V>(t: Table, event: string, data: Option<Json>, decode: Decoder<V>)
    requires if HasData(data) then event !in t.functions else event !in t.callbacks
    ensures Route(t, Envelope(event, data), decode) == UnknownEventHook(t, event)
  {
  }

  /** A registered function runs exactly when its payload decodes, with the
      decoded value; otherwise only the parsing-error hook can run, never the
      unknown-event hook. */
  lemma RegisteredFunctionDecodesPayload<V>(t: Table, event: string, data: Json, decode: Decoder<V>)
    requires event in t.functions && !data.JNull?
    ensures var a := Route(t, Envelope(event, Some(data)), decode);
      match decode(t.functions[event].shape, data)
      case Some(v) => a == Function(t.functions[event].handler, v)
      case None => a == ParsingErrorHook(t)
  {
  }

  /** A registered callback runs for a frame without data, even when a
      function is registered under the same name. */
  lemma RegisteredCallbackRuns<V>(t: Table, event: string, data: Option<Json>, decode: Decoder<V>)
    requires event in t.callbacks && !HasData(data)
    ensures Route(t, Envelope(event, data), decode) == Callback(t.callbacks[event])
  {
  }

  /** An explicit `"data": null` is routed exactly like an absent data field. */
  lemma ExplicitNullIsAbsentData<V>(t: Table, event: string, decode: Decoder<V>)
    ensures Route(t, Envelope(event, Some(JNull)), decode) == Route(t, Envelope(event, None), decode)
  {
  }

  /** The user code the dispatch loop runs for a sequence of frames, in order,
      when every run of user code returns normally: one routed action per
      frame, frames that lead to nothing drop out, and no frame stops the
      processing of the next. */
  function Dispatch<V>(t: Table, frames: seq<Frame>, decode: Decoder<V>): (acts: seq<Action<V>>)
    ensures |acts| <= |frames|
    ensures forall k :: 0 <= k < |acts| ==> !acts[k].Ignore?
  {
    if frames == [] then []
    else
      var a := Route(t, frames[0], decode);
      (if a.Ignore? then [] else [a]) + Dispatch(t, frames[1..], decode)
  }

  /** The text frames of a sequence, in order (what the loop's non-text filter
      lets through): exactly the frames that are not `NonText`. */
  function TextFrames(frames: seq<Frame>): (r: seq<Frame>)
    ensures |r| <= |frames|
    ensures forall f :: f in r <==> f in frames && !f.NonText?
  {
    if frames == [] then []
    else (if frames[0].NonText? then [] else [frames[0]]) + TextFrames(frames[1..])
  }

  /** The filter works frame by frame and keeps the order: filtering two runs
      of frames back to back is filtering each. */
  lemma {:induction false} TextFramesAppend(a: seq<Frame>, b: seq<Frame>)
    ensures TextFrames(a + b) == TextFrames(a) + TextFrames(b)
  {
    if a == [] {
      assert a + b == b;
    } else {
      assert (a + b)[0] == a[0];
      assert (a + b)[1..] == a[1..] + b;
      TextFramesAppend(a[1..], b);
    }
  }

  /** Processing continues after every frame, including those that fail to
      decode: dispatching two runs of frames back to back is dispatching each. */
  lemma {:induction false} DispatchAppend<V>(t: Table, a: seq<Frame>, b: seq<Frame>, decode: Decoder<V>)
    ensures Dispatch(t, a + b, decode) == Dispatch(t, a, decode) + Dispatch(t, b, decode)
  {
    if a == [] {
      assert a + b == b;
    } else {
      assert (a + b)[0] == a[0];
      assert (a + b)[1..] == a[1..] + b;
      DispatchAppend(t, a[1..], b, decode);
    }
  }

  /** Non-text frames have no effect: the loop runs the same user code with
      them filtered out. */
  lemma {:induction false} DispatchIgnoresNonText<V>(t: Table, frames: seq<Frame>, decode: Decoder<V>)
    ensures Dispatch(t, frames, decode) == Dispatch(t, TextFrames(frames), decode)
  {
    if frames != [] {
      DispatchIgnoresNonText(t, frames[1..], decode);
      var head := if frames[0].NonText? then [] else [frames[0]];
      DispatchAppend(t, head, TextFrames(frames[1..]), decode);
      assert head != [] ==> head[1..] == [];
    }
  }
}
