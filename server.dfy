/**
 * The server's command engine (src/server/index.js): per inbound message it
 * decodes, validates and dispatches the command, replies on the same
 * connection or marks it alive, and it runs the heartbeat timer whose tick
 * probes every tracked connection. Timers are not scheduled here: a
 * registry timer firing and a heartbeat tick are each one method call, and
 * the clock is a parameter.
 */
module Server {
  import opened Wrappers
  import opened Protocol
  import opened ServerErrors
  import opened ServerSubscriptions

  // ---------------------------------------------------------------------
  // Decision logic: #parseData, #validateCommand, #handleCommand
  // ---------------------------------------------------------------------

  /** What a valid command makes the server do. */
  datatype Action = DoSubscribe | DoUnsubscribe | DoCount | DoHeartbeat

  /** `#parseData`: a text that does not decode throws `BadPayload`, with
      the parse error as its cause. */
  function ParseData(data: Decoded): (r: Result<Payload, BaseError>)
    ensures r.Ok? <==> data.Json?
    ensures r.Ok? ==> r.value == data.value
    ensures r.Err? ==> r.error == NewBadPayload(Some(data.parseError))
  {
    match data
    case NotJson(parseError) => Err(NewBadPayload(Some(parseError)))
    case Json(value) => Ok(value)
  }

  /** `#validateCommand`: the payload must be truthy and its `type` one of
      the values of `Commands`; otherwise it throws `InvalidCommand`. */
  function ValidateCommand(payload: Payload): (r: Result<Command, BaseError>)
    ensures r.Ok? <==> payload.Obj? && payload.typ.Some? && payload.typ.value.Cmd?
    ensures r.Ok? ==> payload.typ == Some(Cmd(r.value))
    ensures r.Err? ==> r.error == NewInvalidCommand(None)
  {
    if payload.Obj? && payload.typ.Some? && payload.typ.value.Cmd? then Ok(payload.typ.value.command)
    else Err(NewInvalidCommand(None))
  }

  /** `#handleCommand`'s switch: the four handled members, and `default`,
      which throws `InvalidCommand` for any other member of `Commands`. */
  function HandleCommand(c: Command): (r: Result<Action, BaseError>)
    ensures r.Err? <==> c.OtherCommand?
    ensures r.Err? ==> r.error == NewInvalidCommand(None)
  {
    match c
    case Subscribe => Ok(DoSubscribe)
    case Unsubscribe => Ok(DoUnsubscribe)
    case CountSubscribers => Ok(DoCount)
    case Heartbeat => Ok(DoHeartbeat)
    case OtherCommand(_) => Err(NewInvalidCommand(None))
  }

  /** The `try` block of `#handleMessage`: parse, validate, dispatch; the
      first error thrown is the outcome. Exactly one of three things
      happens: a `BadPayload` for text that does not decode, an
      `InvalidCommand` for anything but the four handled kinds, or the
      action of that kind. */
  function Dispatch(data: Decoded): (r: Result<Action, BaseError>)
    ensures r.Err? ==> WellFormed(r.error)
    ensures r.Err? && r.error.kind == BadPayload <==> data.NotJson?
    ensures r.Err? && r.error.kind == BadPayload ==> r.error.cause == Some(data.parseError)
    ensures r.Err? && r.error.kind == InvalidCommand <==> data.Json? && !HandledType(data)
    ensures r == Ok(DoSubscribe) <==> TypeOf(data) == Some(Cmd(Subscribe))
    ensures r == Ok(DoUnsubscribe) <==> TypeOf(data) == Some(Cmd(Unsubscribe))
    ensures r == Ok(DoCount) <==> TypeOf(data) == Some(Cmd(CountSubscribers))
    ensures r == Ok(DoHeartbeat) <==> TypeOf(data) == Some(Cmd(Heartbeat))
  {
    match ParseData(data)
    case Err(e) => Err(e)
    case Ok(payload) =>
      match ValidateCommand(payload)
      case Err(e) => Err(e)
      case Ok(c) => HandleCommand(c)
  }

  /** `#sendError`'s message: `'Error'`, the error's text, the clock. */
  function ErrorData(e: BaseError, now: nat): (p: Payload)
    ensures p.Obj? && p.typ == Some(Foreign("Error")) && p.updatedAt == Some(now)
    ensures WellFormed(e) ==> p.error == Some(e.message)
  {
    ErrorReply(ReportedMessage(e), now)
  }

  /** The reply a registry fire in direction `dir` resolves into. */
  function FireReply(dir: Direction, at: nat): (p: Payload)
    ensures p.Obj? && p.updatedAt == Some(at)
    ensures p.typ == Some(Cmd(if dir == Subscribing then Subscribe else Unsubscribe))
    ensures p.status == Some(if dir == Subscribing then "Subscribed" else "Unsubscribed")
  {
    match dir
    case Subscribing => SubscribedReply(at)
    case Unsubscribing => UnsubscribedReply(at)
  }

  // ---------------------------------------------------------------------
  // Connections
  // ---------------------------------------------------------------------

  /** The transport's `readyState` values. */
  datatype ReadyState = Connecting | Open | Closing | Closed

  /** One client connection as the server sees it: its state, the
      `isAlive` flag the server sets, and the messages written to it. */
  class Connection {
    var readyState: ReadyState
    /** Never set when the connection opens (it starts `undefined`). */
    var isAlive: bool
    var outbox: seq<Payload>

    constructor(readyState: ReadyState)
      ensures this.readyState == readyState && !isAlive && outbox == []
    {
      this.readyState := readyState;
      isAlive := false;
      outbox := [];
    }
  }

  /** What `#send` writes to a connection in `state`: the message when the
      connection is open, nothing otherwise. */
  function Delivered(state: ReadyState, data: Payload): (out: seq<Payload>)
    ensures |out| <= 1
    ensures out == [data] <==> state == Open
    ensures state != Open ==> out == []
  {
    if state == Open then [data] else []
  }

  /** A registry timer that was started and has not fired yet: the one
      `#handleSubscribe` or `#handleUnsubscribe` set up for `client`. */
  datatype Pending = Pending(client: Connection, dir: Direction)

  // ---------------------------------------------------------------------
  // The server
  // ---------------------------------------------------------------------

  class SubscribeServer {
    const heartbeatInterval: int
    /** The registry, keyed by connection. */
    const subscriptions: Subscriptions<Connection>
    /** Whether `#heartbeatTimer` holds an interval handle. */
    var heartbeatTimer: bool
    /** The intervals `setInterval` has created and no `clearInterval` has
        cleared yet; each one would run the heartbeat tick. */
    ghost var intervals: nat
    /** The connections the transport tracks (`wsServer.clients`). */
    var clients: set<Connection>
    /** Registry timers started and not yet fired. */
    var pending: seq<Pending>

    /** The handle in `#heartbeatTimer` is the only live interval: one
        runs exactly when a handle is held, so `#stopHeartbeat` can clear it. */
    ghost predicate Valid()
      reads this
    {
      intervals == if heartbeatTimer then 1 else 0
    }

    constructor(heartbeatInterval: int := 1000, subscribeDelay: nat := 4000, unsubscribeDelay: nat := 8000)
      ensures this.heartbeatInterval == heartbeatInterval
      ensures fresh(subscriptions) && subscriptions.table == map[]
      ensures subscriptions.subscribeDelay == subscribeDelay && subscriptions.unsubscribeDelay == unsubscribeDelay
      ensures !heartbeatTimer && clients == {} && pending == []
      ensures Valid() && intervals == 0
    {
      this.heartbeatInterval := heartbeatInterval;
      subscriptions := new Subscriptions(subscribeDelay, unsubscribeDelay);
      heartbeatTimer := false;
      intervals := 0;
      clients := {};
      pending := [];
    }

    /** `#send`: writes only to an open connection; otherwise it skips the
        write (and logs). */
    static method Send(client: Connection, data: Payload)
      modifies client`outbox
      ensures client.outbox == old(client.outbox) + Delivered(client.readyState, data)
    {
      if client.readyState == Open {
        client.outbox := client.outbox + [data];
      }
    }

    /** The 'connection' event: the transport starts tracking the new
        connection, and the server listens to its messages and close. */
    method OnConnection(client: Connection)
      modifies this`clients
      ensures clients == old(clients) + {client}
    {
      clients := clients + {client};
    }

    /** `#handleMessage`: the decision of Dispatch carried out. An error
        becomes one error reply; `subscribe` and `unsubscribe` start a
        registry timer and reply when it fires; `count-subscribers` replies
        with the current count; `heartbeat` marks the connection alive and
        sends nothing. The registry itself never changes here, and the
        connection is never closed. */
    method HandleMessage(client: Connection, data: Decoded, now: nat)
      modifies client`outbox, client`isAlive, this`pending
      ensures var r := Dispatch(data);
        client.outbox == old(client.outbox) +
          match r
          case Err(e) => Delivered(client.readyState, ErrorData(e, now))
          case Ok(DoCount) => Delivered(client.readyState, CountReply(ActiveCount(subscriptions.table), now))
          case Ok(_) => []
      ensures var r := Dispatch(data);
        pending == old(pending) +
          match r
          case Ok(DoSubscribe) => [Pending(client, Subscribing)]
          case Ok(DoUnsubscribe) => [Pending(client, Unsubscribing)]
          case _ => []
      ensures client.isAlive == (old(client.isAlive) || Dispatch(data) == Ok(DoHeartbeat))
    {
      match Dispatch(data)
      case Err(e) =>
        Send(client, ErrorData(e, now));
      case Ok(DoSubscribe) =>
        pending := pending + [Pending(client, Subscribing)];
      case Ok(DoUnsubscribe) =>
        pending := pending + [Pending(client, Unsubscribing)];
      case Ok(DoCount) =>
        var count := subscriptions.SubscribersCount();
        Send(client, CountReply(count, now));
      case Ok(DoHeartbeat) =>
        client.isAlive := true;
    }

    /** The registry timer `pending[i]` fires: the registry step runs and
        its result is sent to that timer's connection, if still open. */
    method FireTimer(i: nat, now: nat)
      requires i < |pending|
      modifies subscriptions`table, pending[i].client`outbox, this`pending
      ensures pending == old(pending[..i] + pending[i + 1..])
      ensures var Pending(client, dir) := old(pending[i]);
        && subscriptions.table == AfterFire(old(subscriptions.table), client, dir, now)
        && client.outbox == old(client.outbox) +
             Delivered(client.readyState, FireReply(dir, FireStamp(old(subscriptions.table), client, dir, now)))
    {
      var Pending(client, dir) := pending[i];
      pending := pending[..i] + pending[i + 1..];
      var at;
      match dir {
        case Subscribing =>
          at := subscriptions.SubscribeFire(client, now);
        case Unsubscribing =>
          at := subscriptions.UnsubscribeFire(client, now);
      }
      Send(client, FireReply(dir, at));
    }

    /** The 'close' event of a connection: the connection is already
        closed and the transport no longer tracks it; the server removes
        its registry entry. */
    method OnClose(client: Connection)
      requires client.readyState == Closed
      modifies subscriptions`table, this`clients
      ensures subscriptions.table == old(subscriptions.table) - {client}
      ensures clients == old(clients) - {client}
    {
      clients := clients - {client};
      subscriptions.Clear(client);
    }

    /** `#startHeartbeat`: a no-op when heartbeating is disabled or the
        timer is already running; otherwise it creates one interval and
        keeps its handle. Starting twice never creates a second interval. */
    method StartHeartbeat()
      requires Valid()
      modifies this`heartbeatTimer, this`intervals
      ensures Valid()
      ensures heartbeatTimer == (old(heartbeatTimer) || heartbeatInterval > 0)
      ensures intervals == old(intervals) + if !old(heartbeatTimer) && heartbeatInterval > 0 then 1 else 0
      ensures intervals <= 1
    {
      if heartbeatInterval <= 0 {
        return;
      }
      if heartbeatTimer {
        return;
      }
      heartbeatTimer := true;
      intervals := intervals + 1;
    }

    /** `#stopHeartbeat`: clears the interval whose handle is held, if any,
        and forgets the handle; afterwards no interval runs. */
    method StopHeartbeat()
      requires Valid()
      modifies this`heartbeatTimer, this`intervals
      ensures Valid()
      ensures !heartbeatTimer && intervals == 0
    {
      if heartbeatTimer {
        intervals := intervals - 1;
      }
      heartbeatTimer := false;
    }

    /** One tick of the heartbeat timer: every tracked connection that is
        open receives one probe. No connection is terminated and no
        liveness flag changes; the eviction is disabled in the source. */
    method HeartbeatTick(now: nat)
      requires heartbeatTimer
      modifies clients
      ensures forall c :: c in clients ==>
        c.outbox == old(c.outbox) + Delivered(c.readyState, HeartbeatMessage(now))
      ensures forall c :: c in clients ==> c.readyState == old(c.readyState) && c.isAlive == old(c.isAlive)
    {
      var rest := clients;
      while rest != {}
        invariant rest <= clients
        invariant forall c :: c in clients && c !in rest ==>
          c.outbox == old(c.outbox) + Delivered(c.readyState, HeartbeatMessage(now))
        invariant forall c :: c in rest ==> c.outbox == old(c.outbox)
        invariant forall c :: c in clients ==> c.readyState == old(c.readyState) && c.isAlive == old(c.isAlive)
        decreases rest
      {
        var client :| client in rest;
        Send(client, HeartbeatMessage(now));
        rest := rest - {client};
      }
    }
  }
}
