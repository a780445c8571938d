/**
 * How the two sides of the protocol fit together: every request the client
 * sends is a command the server handles, and every message the server sends
 * leads the client to the matching event, an echo, or nothing. Encoding a
 * message and decoding it again is taken to give the same value.
 */
module ProtocolAgreement {
  import opened Wrappers
  import opened Protocol
  import opened ServerErrors
  import opened ServerSubscriptions
  import Server
  import Client

  /** The client's three requests reach the matching server action. */
  lemma RequestsAreHandled()
    ensures Server.Dispatch(Json(Request(Subscribe))) == Ok(Server.DoSubscribe)
    ensures Server.Dispatch(Json(Request(Unsubscribe))) == Ok(Server.DoUnsubscribe)
    ensures Server.Dispatch(Json(Request(CountSubscribers))) == Ok(Server.DoCount)
  {
  }

  /** The client's echo of a probe is the server's heartbeat command, which
      marks the connection alive. */
  lemma EchoIsHeartbeatCommand(now: nat)
    ensures Server.Dispatch(Json(HeartbeatMessage(now))) == Ok(Server.DoHeartbeat)
  {
  }

  /** A probe makes the client echo; a fire reply and a count reply become
      the matching event carrying the same stamp and count. */
  lemma RepliesBecomeEvents(dir: Direction, at: nat, count: nat, now: nat)
    ensures Client.React(Json(HeartbeatMessage(now))) == Client.EchoHeartbeat
    ensures Client.React(Json(Server.FireReply(dir, at))) ==
      Client.Emit(if dir == Subscribing then Client.Subscribed(Some(at)) else Client.Unsubscribed(Some(at)))
    ensures Client.React(Json(CountReply(count, now))) == Client.Emit(Client.Count(Some(count), Some(now)))
  {
  }

  /** An error reply is only logged by the client: no event is emitted and
      nothing is sent back. */
  lemma ErrorRepliesAreOnlyLogged(e: BaseError, now: nat)
    ensures Client.React(Json(Server.ErrorData(e, now))) == Client.LogOnly
  {
  }
}
