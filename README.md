# Hypercube event multiplexing, modelled in Dafny

Hypercube runs on top of one WebSocket connection per client. It turns each
inbound text frame into an `{event, data}` envelope and routes it, by
event name, to a handler that the application registered.

The model covers these parts:

- **Handler table.** `HypercubeSockets` holds two separate maps. Callbacks
  run for frames without data. Functions run for frames with data and carry
  a decode target.
- **Hooks.** There are four single-slot hooks: open, close, parsing error
  and unknown event.
- **Live session set.** `broadcast` and `broadcastRaw` fan out over it.
- **Frame routing.** This is the per-frame rule of the connection loop.
- **Connection lifecycle.** The session is registered, then the open hook
  runs. Frames are routed in arrival order. Then the session is deregistered
  and the close hook runs.
- **Session output.** `HypercubeSession` provides `send`, `emit` and
  `close`, and orders sessions by id.
- **Sample chat server.** It names members `user1`, `user2`, … and
  announces joins, messages, renames and departures.

Files and modules:

- `protocol.dfy` (`Protocol`): JSON values, inbound frames, outbound frames,
  and the `data != null` test.
- `strings.dfy` (`Strings`): `String.compareTo` and `Int.toString`, with
  their order and injectivity lemmas.
- `routing.dfy` (`Routing`): the handler table value, the per-frame `Route`
  rule, and `Dispatch` over a frame sequence.
- `lifecycle.dfy` (`Lifecycle`): the frame loop with early end and the
  failures it catches itself, and one connection as written and with its
  cleanup guarded.
- `hypercube.dfy` (`Hypercube`): the classes `HypercubeSession` and
  `HypercubeSockets`, which hold the mutable state, plus the frame loop as a
  method.
- `chat.dfy` (`Chat`): the `ChatServer` class.

Handler bodies are opaque, and routing never runs them:

- `Route` returns an `Action` that names the handler or hook to run and its
  argument.
- `Serve` records each run of user code in a trace, with whether the session
  was live at that moment.
- How each run of user code ended is an input to `Serve`. It can return,
  call `close()`, or raise `JsonDataException`, `IOException` or anything
  else. The loop catches two of these itself: a function handler's
  `JsonDataException` (the parsing-error hook runs next and the loop goes
  on), and a `JsonDataException` or `IOException` from the parsing-error
  hook run for an envelope that decodes to null (the hook runs again).
- Typed payload decoding is a function parameter, `Decoder<V>`. It returns
  `None` when the decoder gives null or raises `JsonDataException`.

Where the code and the usual reading of the protocol differ, the model
follows the code:

- Callbacks and functions live in two maps. `on("x")` and `on("x", T)`
  therefore coexist, and the data field picks one of them (`SameNameScenario`).
  They do not overwrite each other.
- An explicit `"data": null` decodes to a null field. It takes the callback
  path, exactly like an absent field (`ExplicitNullIsAbsentData`). It is not
  a function call with a null payload.
- `send` does not catch the closed-channel failure; `emit` and `close` do.
  So `broadcastRaw` stops at the first session whose channel is closed,
  while `broadcast` always reaches every session.
- The close hook receives only the session id.

## Model

| member | source | states |
|---|---|---|
| `Strings.Compare` | src/main/kotlin/Hypercube.kt:150-154 | comparing two ids gives zero exactly when they are equal |
| `Strings.CompareAntisymmetric` | src/main/kotlin/Hypercube.kt:150-154 | swapping the two ids negates the comparison |
| `Strings.CompareTransitive` | src/main/kotlin/Hypercube.kt:150-154 | the "less than" the comparison induces is transitive |
| `Strings.CompareIsLexicographic` | src/main/kotlin/Hypercube.kt:150-154 | the comparison is negative exactly when the first id is a proper prefix of the second, or has the smaller character at the first difference |
| `Hypercube.HypercubeSession.CompareTo` | src/main/kotlin/Hypercube.kt:150-154 | sessions compare equal iff their ids are equal; negative or positive iff one id precedes the other lexicographically |
| `Strings.NatToDecimal` | samples/chat/src/main/kotlin/ChatServer.kt:77 | the rendering of a count is a non-empty string of decimal digits that denotes exactly that count, with no leading zero except in `0` |
| `Strings.IntToDecimal` | samples/chat/src/main/kotlin/ChatServer.kt:77 | the rendering of an `Int` starts with a minus sign exactly when it is negative; the digits after it denote the magnitude, with no leading zero except in `0` |
| `Strings.NatToDecimalInjective` | samples/chat/src/main/kotlin/ChatServer.kt:77 | different natural numbers render differently |
| `Strings.IntToDecimalInjective` | samples/chat/src/main/kotlin/ChatServer.kt:77 | different integers render differently |
| `Strings.DecimalRoundTrip` | samples/chat/src/main/kotlin/ChatServer.kt:77 | every digit string without a leading zero is the rendering of the number it denotes, so rendering and reading back are inverse |
| `Routing.Route` | src/main/kotlin/Hypercube.kt:214-261 | which user code a frame is routed to first, and every outcome is justified: a non-text frame runs nothing; the parsing-error hook runs only when set, and only for an envelope that failed to decode, decoded to null, or carried a payload its function's shape rejected; the unknown-event hook runs only when set, with the frame's own event name, when the map the data field selects has no entry; a function runs only for data-carrying frames, with exactly the decoded payload; a callback runs only for frames without data. A second run after a caught failure is `Lifecycle.RunFrame`'s |
| `Routing.MalformedOnlyReachesParsingErrorHook` | src/main/kotlin/Hypercube.kt:217-234 | an envelope that fails to decode or decodes to null leads to the parsing-error hook if set and to nothing otherwise, never to a handler or the unknown-event hook |
| `Routing.MissingEntryReachesUnknownEventHook` | src/main/kotlin/Hypercube.kt:236-261 | with non-null data and no function, or null data and no callback, the frame leads to the unknown-event hook with its exact event name (nothing if that hook is unset) |
| `Routing.RegisteredFunctionDecodesPayload` | src/main/kotlin/Hypercube.kt:236-252 | with non-null data and a registered function: a decoded payload runs that function once with the decoded value; a rejected payload leads only to the parsing-error hook |
| `Routing.RegisteredCallbackRuns` | src/main/kotlin/Hypercube.kt:253-257 | with null or absent data and a registered callback, that callback runs, even if a function has the same name |
| `Routing.ExplicitNullIsAbsentData` | src/main/kotlin/Hypercube.kt:236 | an explicit `"data": null` is routed exactly like an absent data field |
| `Routing.Dispatch` | src/main/kotlin/Hypercube.kt:214-262 | the user code the loop runs when every run of it returns: one routed action per frame at most, and no entry is a non-action |
| `Routing.TextFrames` | src/main/kotlin/Hypercube.kt:214 | the non-text filter keeps exactly the frames that are not non-text and never lengthens the sequence |
| `Routing.TextFramesAppend` | src/main/kotlin/Hypercube.kt:214 | the filter works frame by frame and keeps arrival order: filtering `a + b` is filtering `a`, then filtering `b` |
| `Routing.DispatchAppend` | src/main/kotlin/Hypercube.kt:214-262 | processing continues after every frame, failed ones included: dispatching `a + b` runs dispatch of `a`, then dispatch of `b` |
| `Routing.DispatchIgnoresNonText` | src/main/kotlin/Hypercube.kt:214 | non-text frames have no effect: removing them leaves the user code that runs unchanged |
| `Lifecycle.RunFrame` | src/main/kotlin/Hypercube.kt:214-261 | one frame: the routed action runs first; the parsing-error hook runs second exactly when the loop's own `try` caught what that action raised and the hook is set; the connection ends exactly when the last of these did not return normally and was not caught |
| `Lifecycle.RunFrames` | src/main/kotlin/Hypercube.kt:213-262 | the loop runs at most two runs of user code per remaining frame, and never a non-action |
| `Lifecycle.RunFramesIsPrefixOfDispatch` | src/main/kotlin/Hypercube.kt:213-262 | when no user code raises, the loop runs a prefix of what full dispatch would run, and all of it when every run of user code returns |
| `Lifecycle.FunctionDataErrorRunsParsingErrorHook` | src/main/kotlin/Hypercube.kt:244-252 | a function handler that raises `JsonDataException` is followed by the parsing-error hook (when set), and the loop goes on with the next frame unless that hook ends the connection |
| `Lifecycle.NullEnvelopeHookRetries` | src/main/kotlin/Hypercube.kt:216-233 | for an envelope that decodes to null, a parsing-error hook that raises `JsonDataException` or `IOException` is caught and runs a second time; a second raise, a `close()` or any other failure ends the connection |
| `Lifecycle.UncaughtRaiseEndsConnection` | src/main/kotlin/Hypercube.kt:213-262 | anything else user code raises is not caught by the loop: the connection ends right after that run |
| `Hypercube.RouteFrame` | src/main/kotlin/Hypercube.kt:214-261 | the body of the frame loop for one frame, a method with the source's branches, computes exactly `RunFrame` |
| `Hypercube.RouteFrames` | src/main/kotlin/Hypercube.kt:213-262 | the frame loop, a `while` loop over `RouteFrame`, computes exactly `RunFrames` |
| `Lifecycle.ServeAsWritten` | src/main/kotlin/Hypercube.kt:205-268 | one connection as written: the session stays registered exactly when the open hook is set and raised, and then only the open hook ran; otherwise the trace starts with the open hook and ends with the close hook (each when set) |
| `Lifecycle.ServeGuarded` | src/main/kotlin/Hypercube.kt:205-268 | the corrected connection: the session always ends deregistered, the open hook (when set) runs first and the close hook (when set) last with the id, and nothing is routed when the open hook did not return |
| `Lifecycle.OrderedAround` | src/main/kotlin/Hypercube.kt:205-268 | any run of routed steps taken while the session is live, placed after the open hook and before the close hook, gives a trace in the promised order |
| `Lifecycle.GuardedReleasesSession` | src/main/kotlin/Hypercube.kt:205-268 | with the open hook inside the guarded block, every connection ends deregistered. The open hook runs first and the close hook last with the session id. Every step but the close hook runs while the session is live. The middle of the trace is exactly the routed actions |
| `Lifecycle.AsWrittenAgreesUnlessOpenRaises` | src/main/kotlin/Hypercube.kt:205-268 | as written, a connection behaves like the guarded one unless the open hook raises |
| `Lifecycle.OpenHookRaiseLeaksSession` | src/main/kotlin/Hypercube.kt:209-213 | as written, an open hook that raises leaves the session in the live set, the close hook never runs, and the order above fails |
| `Hypercube.HypercubeSockets.Serve` | src/main/kotlin/Hypercube.kt:205-268 | one connection as written: its trace is `ServeAsWritten`'s, each step records actual membership, and the live set ends with the session removed, or still present only when the open hook raised |
| `Hypercube.HypercubeSockets.constructor` | src/main/kotlin/Hypercube.kt:91-126 | a new scope has no live sessions, no callbacks or functions, and no hooks |
| `Hypercube.HypercubeSockets.On` | src/main/kotlin/Hypercube.kt:290-292 | the callback for the event becomes the new handler (the last registration wins); the frame lets nothing else change, so functions and hooks are untouched |
| `Hypercube.HypercubeSockets.OnFunction` | src/main/kotlin/Hypercube.kt:297-301 | the function entry for the event becomes the new shape and handler; callbacks and hooks are untouched |
| `Hypercube.HypercubeSockets.OnOpen` | src/main/kotlin/Hypercube.kt:271-273 | overwrites the open-hook slot only |
| `Hypercube.HypercubeSockets.OnClose` | src/main/kotlin/Hypercube.kt:275-277 | overwrites the close-hook slot only |
| `Hypercube.HypercubeSockets.OnParsingError` | src/main/kotlin/Hypercube.kt:279-281 | overwrites the parsing-error slot only |
| `Hypercube.HypercubeSockets.OnUnknownEvent` | src/main/kotlin/Hypercube.kt:283-285 | overwrites the unknown-event slot only |
| `Hypercube.HypercubeSockets.Broadcast` | src/main/kotlin/Hypercube.kt:131-135 | every live session with an open channel gets exactly one copy of the envelope appended; only live sessions' outboxes may change |
| `Hypercube.HypercubeSockets.BroadcastRaw` | src/main/kotlin/Hypercube.kt:140-144 | it completes iff every live channel is open. Each reached session with an open channel gets the text exactly once. On failure, one reached session had a closed channel, and the sessions after it get nothing |
| `Hypercube.HypercubeSession.constructor` | src/main/kotlin/Hypercube.kt:159 | a new session has its id, an empty outbox and an uncancelled inbound channel |
| `Hypercube.HypercubeSession.Send` | src/main/kotlin/Hypercube.kt:165-167 | the text is appended iff the channel is open, and the failure reaches the caller otherwise |
| `Hypercube.HypercubeSession.Emit` | src/main/kotlin/Hypercube.kt:174-182 | the envelope is appended iff the channel is open; the failure is swallowed |
| `Hypercube.HypercubeSession.Close` | src/main/kotlin/Hypercube.kt:188-191 | a close frame is appended iff the channel is open, and the inbound channel is cancelled |
| `Hypercube.SameNameScenario` | src/main/kotlin/Hypercube.kt:290-301 | `on("echo")` and `on("echo", String)` fill two separate maps and coexist. A frame with data runs the function with `"hello"` (the payload of the echo test, src/test/kotlin/HypercubeTest.kt:14-31), and one without data runs the callback. A mistyped payload reaches only the parsing-error hook. An unknown name reaches only the unknown-event hook |
| `Hypercube.OpenBeforeRoutingScenario` | src/test/kotlin/HypercubeTest.kt:52-73 | open hook, then the `ping` callback with the session live; the binary frame is ignored; the close hook runs with the id after deregistration |
| `Chat.Increment` | samples/chat/src/main/kotlin/ChatServer.kt:74-77 | the join counter advances by exactly one modulo 2^32 |
| `Chat.UserName` | samples/chat/src/main/kotlin/ChatServer.kt:77 | a default nickname starts with `user` and continues after it |
| `Chat.UserNameSpellsCount` | samples/chat/src/main/kotlin/ChatServer.kt:77 | a default nickname is `user` followed by the count in decimal: a minus sign exactly for a negative count, then digits without a leading zero that denote its magnitude |
| `Chat.FirstUserName` | samples/chat/src/main/kotlin/ChatServer.kt:76-79 | the first member to join is called `user1` |
| `Chat.UserNamesDistinct` | samples/chat/src/main/kotlin/ChatServer.kt:77 | different counter values give different default nicknames |
| `Chat.ChatServer.constructor` | samples/chat/src/main/kotlin/ChatServer.kt:60-74 | no members and a zero counter |
| `Chat.ChatServer.MemberJoin` | samples/chat/src/main/kotlin/ChatServer.kt:76-79 | the counter advances by one. The joining id gets `"user" + count`, and no other entry changes. That name goes to every live session as `memberJoin` |
| `Chat.ChatServer.ReceivedMessage` | samples/chat/src/main/kotlin/ChatServer.kt:81-83 | requires a known sender; the state is unchanged and `{from: current nickname, content}` is broadcast as `message` |
| `Chat.ChatServer.ChangeNickname` | samples/chat/src/main/kotlin/ChatServer.kt:85-89 | requires a known sender; only that entry becomes the new nickname and `{old: previous, new}` is broadcast as `nickname` |
| `Chat.ChatServer.MemberLeft` | samples/chat/src/main/kotlin/ChatServer.kt:91-94 | requires a known member; the name it had is broadcast as `memberLeft` and only that entry is removed |
| `Chat.ChangeNicknameConversation` | samples/chat/src/test/kotlin/ChatServerTest.kt:67-86 | one member receives `memberJoin user1`, then `nickname {old: user1, new: milo}`, then `message {from: milo, content: Hello}` |

## Left out

- Ktor transport and configuration are not modelled: feature installation, ping, timeout, frame size and masking (src/main/kotlin/Hypercube.kt:45-76), and route binding.
- JSON text is not modelled. Frames arrive already decoded into `Frame`, and an emitted envelope is kept as its event name and payload. The exact wire text, including leaving out a null `data`, is the serialiser's concern.
- `KClass` reflection and adapter lookup are replaced by the `Decoder` parameter. Failures other than `JsonDataException` while building an adapter are not modelled.
- JSON numbers are kept as `real`. The decoder's double precision is not modelled.
- Concurrency is not modelled: coroutines, `ConcurrentHashMap`, `AtomicInteger` atomicity, and sessions added or removed during a broadcast. Connections run one at a time.
- `nextNonce()` is randomness. Session ids are given.
- Handler bodies are opaque. What they send or broadcast is not part of `Serve`'s trace. How each one ended is an input, not derived from `HypercubeSession.Close` or `incomingCancelled`.
- A frame already in flight when `close()` cancels the inbound channel is not modelled. After the closing handler, no further frame is read.
- What happens after the cleanup is not modelled: an exception escaping a handler propagates out of the connection handler once the cleanup has run.
- `HypercubeId` is not a class of its own. Its only state is the session id, which the close hook receives.
- `Strings.Compare` compares Dafny characters (Unicode scalar values), not UTF-16 code units. It differs only for characters outside the Basic Multilingual Plane.
- `Hypercube.HypercubeSockets.BroadcastRaw`: does not name the set's iteration order; it gives the skipped sessions as a set.
- `ChatApplication`, the static web resources and the browser client are application glue, and are not part of this model.

## Findings

| source | as written | input that shows it | evidently intended | confidence | as-written member | corrected member |
|---|---|---|---|---|---|---|
| src/main/kotlin/Hypercube.kt:209-213 | The session is added and the open hook runs before the `try` whose `finally` removes the session and runs the close hook. | An open hook that raises, for example one that calls `send` on a client whose outgoing channel has already closed. | The session stays in the live set for good, and the close hook never runs. Later `broadcastRaw` calls stop at that dead session. The cleanup should run on every exit. | medium, not executed | `Lifecycle.OpenHookRaiseLeaksSession` | `Lifecycle.GuardedReleasesSession` |

`Hypercube.HypercubeSockets.Serve` follows the code as written. `Lifecycle.ServeGuarded` is the corrected handler.
