/**
 * The client's protocol handler (src/client/index.js). It holds at most one
 * connection, set once by `connect`; each command method fails when there is
 * none and otherwise sends one request. An inbound heartbeat probe is echoed;
 * the three replies become events; anything else is only logged.
 */
module Client {
  import opened Wrappers
  import opened Protocol

  /** The error `#checkConnection` throws. */
  const NotConnectedMessage: string := "Client is not connected to the server"

  /** The client's end of the connection: the messages written to it. */
  class Socket {
    var outbox: seq<Payload>

    constructor()
      ensures outbox == []
    {
      outbox := [];
    }
  }

  /** The events `#handleMessage` emits, with the arguments it passes. */
  datatype Event =
    | Subscribed(updatedAt: Option<nat>)
    | Unsubscribed(updatedAt: Option<nat>)
    | Count(count: Option<nat>, updatedAt: Option<nat>)

  /** What an inbound message leads to. */
  datatype Reaction = Emit(event: Event) | EchoHeartbeat | LogOnly

  /** The switch of `#handleMessage`, which has no `default`: a heartbeat
      probe is echoed, the three replies each yield their event with the
      fields they carry, and every other message (an error reply, an
      unknown type, a payload without `type`, text that does not decode) is
      only logged. */
  function React(data: Decoded): (r: Reaction)
    ensures r == EchoHeartbeat <==> TypeOf(data) == Some(Cmd(Heartbeat))
    ensures r.Emit? && r.event.Subscribed? <==> TypeOf(data) == Some(Cmd(Subscribe))
    ensures r.Emit? && r.event.Unsubscribed? <==> TypeOf(data) == Some(Cmd(Unsubscribe))
    ensures r.Emit? && r.event.Count? <==> TypeOf(data) == Some(Cmd(CountSubscribers))
    ensures r.Emit? ==> r.event.updatedAt == data.value.updatedAt
    ensures r.Emit? && r.event.Count? ==> r.event.count == data.value.count
    ensures r == LogOnly <==> !HandledType(data)
  {
    match TypeOf(data)
    case Some(Cmd(Heartbeat)) => EchoHeartbeat
    case Some(Cmd(Subscribe)) => Emit(Subscribed(data.value.updatedAt))
    case Some(Cmd(Unsubscribe)) => Emit(Unsubscribed(data.value.updatedAt))
    case Some(Cmd(CountSubscribers)) => Emit(Count(data.value.count, data.value.updatedAt))
    case _ => LogOnly
  }

  class SubscriptionClient {
    const serverAddress: string
    const silenceHeartbeat: bool
    /** `#ws`: null until `connect`, then that connection for good. */
    var ws: Socket?
    /** The events emitted so far, in order. */
    var events: seq<Event>

    constructor(serverAddress: string, silenceHeartbeat: bool := true)
      ensures this.serverAddress == serverAddress && this.silenceHeartbeat == silenceHeartbeat
      ensures ws == null && events == []
    {
      this.serverAddress := serverAddress;
      this.silenceHeartbeat := silenceHeartbeat;
      ws := null;
      events := [];
    }

    /** `connect`: opens a connection unless one is already held, in which
        case it only warns and the held one is kept. */
    method Connect()
      modifies this`ws
      ensures old(ws) != null ==> ws == old(ws)
      ensures old(ws) == null ==> ws != null && fresh(ws) && ws.outbox == []
    {
      if ws != null {
        return;
      }
      ws := new Socket();
    }

    /** `#checkConnection`: fails exactly when no connection is held. */
    method CheckConnection() returns (r: Outcome<string>)
      ensures r.Pass? <==> ws != null
      ensures r.Fail? ==> r.error == NotConnectedMessage
    {
      if ws == null {
        return Fail(NotConnectedMessage);
      }
      return Pass;
    }

    /** `subscribe`: one `{type: Subscribe}` request, or the connection error. */
    method Subscribe() returns (r: Outcome<string>)
      modifies ws
      ensures r.Pass? <==> ws != null
      ensures r.Fail? ==> r.error == NotConnectedMessage
      ensures ws != null ==> ws.outbox == old(ws.outbox) + [Request(Command.Subscribe)]
    {
      r := SendCommand(Command.Subscribe);
    }

    /** `unsubscribe`: one `{type: Unsubscribe}` request, or the connection error. */
    method Unsubscribe() returns (r: Outcome<string>)
      modifies ws
      ensures r.Pass? <==> ws != null
      ensures r.Fail? ==> r.error == NotConnectedMessage
      ensures ws != null ==> ws.outbox == old(ws.outbox) + [Request(Command.Unsubscribe)]
    {
      r := SendCommand(Command.Unsubscribe);
    }

    /** `subscribersCount`: one `{type: CountSubscribers}` request, or the connection error. */
    method SubscribersCount() returns (r: Outcome<string>)
      modifies ws
      ensures r.Pass? <==> ws != null
      ensures r.Fail? ==> r.error == NotConnectedMessage
      ensures ws != null ==> ws.outbox == old(ws.outbox) + [Request(CountSubscribers)]
    {
      r := SendCommand(CountSubscribers);
    }

    /** The shape the three command methods share: check, then send. */
    method SendCommand(c: Command) returns (r: Outcome<string>)
      modifies ws
      ensures r.Pass? <==> ws != null
      ensures r.Fail? ==> r.error == NotConnectedMessage
      ensures ws != null ==> ws.outbox == old(ws.outbox) + [Request(c)]
    {
      r := CheckConnection();
      if r.Fail? {
        return;
      }
      ws.outbox := ws.outbox + [Request(c)];
    }

    /** `#handleMessage` for a message that arrived on the held connection:
        an echo for a probe, an event for a reply, nothing else. */
    method HandleMessage(data: Decoded, now: nat)
      requires ws != null
      modifies this`events, ws`outbox
      ensures match React(data)
        case Emit(e) => events == old(events) + [e] && ws.outbox == old(ws.outbox)
        case EchoHeartbeat => events == old(events) && ws.outbox == old(ws.outbox) + [HeartbeatMessage(now)]
        case LogOnly => events == old(events) && ws.outbox == old(ws.outbox)
    {
      match React(data)
      case Emit(e) =>
        events := events + [e];
      case EchoHeartbeat =>
        Heartbeat(now);
      case LogOnly =>
    }

    /** `#heartbeat`: echoes a probe with the current time. */
    method Heartbeat(now: nat)
      requires ws != null
      modifies ws`outbox
      ensures ws.outbox == old(ws.outbox) + [HeartbeatMessage(now)]
    {
      ws.outbox := ws.outbox + [HeartbeatMessage(now)];
    }
  }
}
