/**
 * The wire protocol shared by server and client: the `Commands`
 * enumeration (defined in src/constants, which is not part of this model)
 * and the JSON messages exchanged, as values after decoding.
 */
module Protocol {
  import opened Wrappers

  /** The members of the shared `Commands` enumeration: the four kinds the
      server and the client handle, and any further member, by name. */
  datatype Command = Subscribe | Unsubscribe | CountSubscribers | Heartbeat | OtherCommand(name: string)

  /** The value of a decoded message's `type` field: one of the values of
      `Commands`, or some other string. */
  datatype Tag = Cmd(command: Command) | Foreign(name: string)

  /** A successfully decoded JSON value, as the handlers look at it.
      `Falsy` is a value that `!payload` rejects (null, false, 0, "");
      every other value is an `Obj` whose fields are those it carries, so a
      truthy number or string is an `Obj` with no fields at all. */
  datatype Payload =
    | Falsy
    | Obj(typ: Option<Tag>, status: Option<string>, count: Option<nat>,
          updatedAt: Option<nat>, error: Option<string>)

  /** The result of decoding one inbound text message with `JSON.parse`:
      the parse error, or the value. */
  datatype Decoded = NotJson(parseError: string) | Json(value: Payload)

  /** The `type` of a decoded message, when it has one. */
  function TypeOf(data: Decoded): Option<Tag> {
    if data.Json? && data.value.Obj? then data.value.typ else None
  }

  /** True when `data`'s `type` is one of the four kinds both sides handle. */
  predicate HandledType(data: Decoded) {
    var t := TypeOf(data);
    t.Some? && t.value.Cmd? && !t.value.command.OtherCommand?
  }

  /** `{type}`: what the client sends for one of its three commands. */
  function Request(c: Command): Payload {
    Obj(Some(Cmd(c)), None, None, None, None)
  }

  /** `{type: Heartbeat, updatedAt}`: the server's probe and the client's echo. */
  function HeartbeatMessage(now: nat): Payload {
    Obj(Some(Cmd(Heartbeat)), None, None, Some(now), None)
  }

  /** `{type: Subscribe, status: 'Subscribed', updatedAt}`. */
  function SubscribedReply(at: nat): Payload {
    Obj(Some(Cmd(Subscribe)), Some("Subscribed"), None, Some(at), None)
  }

  /** `{type: Unsubscribe, status: 'Unsubscribed', updatedAt}`. */
  function UnsubscribedReply(at: nat): Payload {
    Obj(Some(Cmd(Unsubscribe)), Some("Unsubscribed"), None, Some(at), None)
  }

  /** `{type: CountSubscribers, count, updatedAt}`. */
  function CountReply(count: nat, now: nat): Payload {
    Obj(Some(Cmd(CountSubscribers)), None, Some(count), Some(now), None)
  }

  /** `{type: 'Error', error, updatedAt}`. */
  function ErrorReply(message: string, now: nat): Payload {
    Obj(Some(Foreign("Error")), None, None, Some(now), Some(message))
  }
}
