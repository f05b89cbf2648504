/** The message envelope exchanged over one WebSocket connection: the inbound
    frames after envelope decoding, and the outbound frames a session queues.
    JSON text itself (parsing and serialisation) is not modelled: a frame
    arrives already decoded into `Frame`, and an outbound event is kept as
    its event name and payload. */
module Protocol {

  datatype Option<+T> = None | Some(value: T)

  /** A JSON value as the decoder hands it over; numbers become doubles. */
  datatype Json =
    | JNull
    | JBool(b: bool)
    | JNumber(n: real)
    | JString(s: string)
    | JArray(items: seq<Json>)
    | JObject(fields: seq<(string, Json)>)

  /** One inbound WebSocket frame.
      `NonText`: a binary or control frame, dropped before decoding.
      `Malformed`: a text frame whose envelope did not decode (the decoder
      raised a data or I/O error).
      `NullEnvelope`: a text frame that decoded to null (the text `null`).
      `Envelope`: a text frame that decoded; `data` is `None` when the field
      is absent and `Some(JNull)` when it is written as `null`. */
  datatype Frame =
    | NonText
    | Malformed
    | NullEnvelope
    | Envelope(event: string, data: Option<Json>)

  /** One frame accepted by a session's outgoing channel.
      `Text`: raw text given to `send`; `Event`: the envelope built by
      `emit`, whose payload is Kotlin's `Any?`: `None` and `Some(JNull)`
      both stand for a null payload and give the same envelope text;
      `CloseFrame`: the close frame queued by `close`. */
  datatype OutFrame =
    | Text(content: string)
    | Event(event: string, data: Option<Json>)
    | CloseFrame

  /** The decoded envelope's `data` is non-null: absent and explicit `null`
      both read as null. */
  predicate HasData(data: Option<Json>)
  {
    data.Some? && !data.value.JNull?
  }
}
