# Subscription server and client, modelled in Dafny

The repository is a small WebSocket service.

- **The server** keeps a registry of subscribers and handles JSON commands on each connection:
  - `Subscribe` is answered after its delay and `Unsubscribe` after its own delay (4000 and 8000 ms by default);
  - `CountSubscribers` is answered at once;
  - a `Heartbeat` (the client's echo of a probe) only marks the connection alive and gets no reply.

  A malformed message gets an error reply if the connection is still open. When heartbeating is enabled (interval > 0), every open tracked connection receives a probe at each interval.
- **The client** holds at most one connection. It sends the three commands, echoes each probe, and turns the three replies into events.

This project models:

- the registry (`src/server/Subscriptions.js`);
- the server's command engine (`src/server/index.js`);
- the error classes (`src/server/errors.js`);
- the client's protocol handler (`src/client/index.js`).

It proves properties of each of them: the contracts and lemmas listed below.

Modules, one per source file plus shared pieces:

- `Wrappers` (`wrappers.dfy`): `Option`, `Result`, `Outcome`.
- `Protocol` (`protocol.dfy`): the `Commands` members and the decoded messages. A message is a `Payload` value. Encoding and decoding are taken as the identity on it, and text that does not decode is `NotJson`.
- `ServerErrors` (`errors.dfy`): `BaseError`, `BadPayload`, `InvalidCommand` and their fixed messages.
- `ServerSubscriptions` (`subscriptions.dfy`):
  - the class `Subscriptions`;
  - the pure functions on its table that specify it;
  - lemmas about one fire and about whole runs of interleaved fires and clears.
- `Server` (`server.dfy`):
  - the decision functions `ParseData`, `ValidateCommand`, `HandleCommand` and `Dispatch`;
  - the classes `Connection` and `SubscribeServer`.
- `Client` (`client.dfy`): the switch of `#handleMessage` as `React`, and the class `SubscriptionClient`.
- `ProtocolAgreement` (`agreement.dfy`): each side's messages are what the other side handles.
- `Scenarios` (`scenarios.dfy`): the runs the repository's tests drive, with the replies and counts they produce.

How time and timers are modelled:

- A delayed subscribe or unsubscribe is split in two:
  - `HandleMessage` records a pending timer.
  - `FireTimer` runs its body later, as one atomic step, with the clock reading as a parameter.
- Pending timers may fire in any order, so the model allows any interleaving the event loop can produce.
- A stamp is a `nat`. JavaScript's truthiness of a stamp is `stamp > 0`. The missing field of the other record kind (`undefined`) is falsy, like `0`.
- Each heartbeat interval that `setInterval` creates is counted in a ghost field. `Valid()` ties that count to the held handle.

The message and record vocabulary has no row of its own in the table below. The contracts and lemmas in the table use it:

- `ServerSubscriptions.Held`: `subscription && subscription.subscribedAt`, or `.unsubscribedAt` (src/server/Subscriptions.js:26,42).
- `ServerSubscriptions.Counted`: the test `subscribedAt > 0` (src/server/Subscriptions.js:56).
- `Protocol.Request`, `Protocol.HeartbeatMessage`, `Protocol.SubscribedReply`, `Protocol.UnsubscribedReply`, `Protocol.CountReply` and `Protocol.ErrorReply`: the message object literals of src/server/index.js:99-102, 166-170, 180-184, 192-196 and 200-204, and of src/client/index.js:43-45 and 105-108.

## Model

| member | source | states |
|---|---|---|
| ServerErrors.NewBadPayload | src/server/errors.js:8-12 | a `BadPayload` carries the fixed text "Bad formatted payload, non JSON" and the cause it was given |
| ServerErrors.NewInvalidCommand | src/server/errors.js:14-18 | an `InvalidCommand` carries the fixed text "Requested method not implemented" and the cause it was given |
| ServerErrors.ReportedMessage | src/server/index.js:202 | the reported text is never empty; it is the error's own message whenever that is non-empty, and "Unknown error" when it is empty |
| ServerErrors.ReportedMessageIdentifiesClass | src/server/errors.js:1-18 | for the errors the server builds, the reported text is the fixed message, never the fallback, and it tells the class apart in both directions |
| ServerSubscriptions.Record | src/server/Subscriptions.js:27 | a fire writes a record whose only stamp is of its own direction and equals the returned stamp |
| ServerSubscriptions.FireStamp | src/server/Subscriptions.js:25-26 | a fire returns the truthy stamp the subscriber already holds in that direction, and the clock when it holds none |
| ServerSubscriptions.AfterFire | src/server/Subscriptions.js:27 | a fire adds or replaces exactly the subscriber's key; every other record is unchanged |
| ServerSubscriptions.ActiveSet | src/server/Subscriptions.js:53-61 | the counted subscribers are registry keys |
| ServerSubscriptions.Subscriptions.constructor | src/server/Subscriptions.js:6-15 | a new registry is empty and keeps its two delays (4000 and 8000 by default) |
| ServerSubscriptions.Subscriptions.SubscribeFire | src/server/Subscriptions.js:22-31 | the subscribe timer reuses a truthy `subscribedAt` or takes the clock, stores only `{subscribedAt}` for that subscriber and resolves with that stamp |
| ServerSubscriptions.Subscriptions.UnsubscribeFire | src/server/Subscriptions.js:38-47 | the unsubscribe timer reuses a truthy `unsubscribedAt` or takes the clock, stores only `{unsubscribedAt}` and resolves with that stamp |
| ServerSubscriptions.Subscriptions.SubscribersCount | src/server/Subscriptions.js:53-61 | the loop returns the number of records with a positive `subscribedAt`, never more than the number of records |
| ServerSubscriptions.Subscriptions.Clear | src/server/Subscriptions.js:67-69 | `clear` removes exactly that subscriber's record |
| ServerSubscriptions.Subscriptions.ClearAll | src/server/Subscriptions.js:74-76 | `clearAll` empties the registry |
| ServerSubscriptions.CountBoundedBySize | src/server/Subscriptions.js:53-61 | the count is at most the number of records |
| ServerSubscriptions.RefireIsIdempotent | src/server/Subscriptions.js:24-28 | a fire on a subscriber that already holds a truthy stamp in that direction returns it and leaves the registry as it was |
| ServerSubscriptions.SecondFireReusesFirst | src/server/Subscriptions.js:22-31 | once the first stamp is truthy, two fires in one direction return the same stamp, whatever the second clock, and the second leaves the registry as the first left it |
| ServerSubscriptions.OppositeFireResetsStamp | src/server/Subscriptions.js:22-47 | a fire in the other direction replaces the record, so the next fire in the first direction returns its own clock |
| ServerSubscriptions.ResubscribeIsLater | src/server/Subscriptions.js:22-47 | subscribe, unsubscribe, subscribe with a clock later than both the first clock and any stamp already held yields a later second stamp |
| ServerSubscriptions.FireCount | src/server/Subscriptions.js:22-61 | subscribing with a positive clock raises the count by one exactly when the subscriber was not counted; unsubscribing lowers it by one exactly when it was |
| ServerSubscriptions.ClearCount | src/server/Subscriptions.js:67-69 | `clear` drops only that key and the count falls by one exactly when that subscriber was counted; clearing an absent key changes nothing |
| ServerSubscriptions.ClearAllCount | src/server/Subscriptions.js:74-76 | `clearAll` on any registry leaves it empty, with count zero |
| ServerSubscriptions.UntouchedRecordKept | src/server/Subscriptions.js:22-76 | any run of fires and clears that never names a subscriber leaves its record (and its absence) exactly as it was |
| ServerSubscriptions.FiresReuseHeldStamp | src/server/Subscriptions.js:22-47 | once a truthy stamp is held, every later fire in that direction resolves with it, through any interleaving that does not reset it |
| ServerSubscriptions.ConcurrentFiresConverge | src/server/Subscriptions.js:22-31 | concurrent fires for one subscriber all resolve with the clock of the first of them |
| Server.ParseData | src/server/index.js:125-131 | text that does not decode is a `BadPayload` whose cause is the parse error; decoded text passes through unchanged |
| Server.ValidateCommand | src/server/index.js:133-137 | a payload passes exactly when it is truthy and its `type` is a member of `Commands`; otherwise `InvalidCommand` without cause |
| Server.HandleCommand | src/server/index.js:139-161 | the switch fails with `InvalidCommand` exactly for members of `Commands` other than the four handled |
| Server.Dispatch | src/server/index.js:114-123 | each message gets one outcome: `BadPayload` exactly for text that does not decode, `InvalidCommand` exactly for a decoded message of an unhandled type, otherwise the action of its type, each in both directions |
| Server.ErrorData | src/server/index.js:199-207 | the error reply has type 'Error', the clock, and the error's own message |
| Server.FireReply | src/server/index.js:163-189 | a fire reply carries the command of its direction, the status 'Subscribed' or 'Unsubscribed' and the stamp the fire resolved with |
| Server.Connection.constructor | src/server/index.js:49-60 | a new connection has the given state, has not been marked alive and has received nothing |
| Server.Delivered | src/server/index.js:209-219 | a send writes the message exactly when the connection is open, and nothing at all otherwise |
| Server.SubscribeServer.constructor | src/server/index.js:7-30 | the server keeps its heartbeat interval, builds an empty registry with the two delays, and starts with no timer and no connections |
| Server.SubscribeServer.Send | src/server/index.js:209-219 | `#send` appends the message to an open connection and leaves any other one as it was |
| Server.SubscribeServer.OnConnection | src/server/index.js:49-60 | a new connection joins the tracked set |
| Server.SubscribeServer.HandleMessage | src/server/index.js:114-197 | one message yields what `Dispatch` decides: an error reply, a count reply with the current count, a new pending timer for subscribe or unsubscribe, or the alive mark for a heartbeat; the registry never changes here |
| Server.SubscribeServer.FireTimer | src/server/index.js:163-189 | a pending timer fires once: it leaves the pending list, runs its registry step, and sends the stamp it resolved with to its connection if open |
| Server.SubscribeServer.OnClose | src/server/index.js:54-56 | a connection that has closed is no longer tracked and its registry entry is removed |
| Server.SubscribeServer.StartHeartbeat | src/server/index.js:81-107 | an interval is created only when the interval setting is positive and no handle is held, so at most one interval ever runs and the held handle is always that one |
| Server.SubscribeServer.StopHeartbeat | src/server/index.js:109-112 | stopping clears the held interval, after which no interval runs and no handle is held |
| Server.SubscribeServer.HeartbeatTick | src/server/index.js:92-104 | a tick sends one probe with the clock to every open tracked connection and terminates none; no liveness flag changes |
| Client.React | src/client/index.js:64-96 | a probe is echoed, each of the three replies becomes its event with the same stamp and count, and every other message is only logged, each in both directions |
| Client.Socket.constructor | src/client/index.js:24 | a new client connection has nothing written to it |
| Client.SubscriptionClient.constructor | src/client/index.js:11-16 | a new client keeps its address and heartbeat silencing and holds no connection |
| Client.SubscriptionClient.Connect | src/client/index.js:18-38 | `connect` opens a connection only when none is held; a second call keeps the first |
| Client.SubscriptionClient.CheckConnection | src/client/index.js:98-102 | the check fails, with 'Client is not connected to the server', exactly when no connection is held |
| Client.SubscriptionClient.Subscribe | src/client/index.js:40-46 | `subscribe` fails without a connection and otherwise sends exactly one `{type: Subscribe}` |
| Client.SubscriptionClient.Unsubscribe | src/client/index.js:48-54 | `unsubscribe` fails without a connection and otherwise sends exactly one `{type: Unsubscribe}` |
| Client.SubscriptionClient.SubscribersCount | src/client/index.js:56-62 | `subscribersCount` fails without a connection and otherwise sends exactly one `{type: CountSubscribers}` |
| Client.SubscriptionClient.SendCommand | src/client/index.js:40-62 | the shared check-then-send shape of the three commands |
| Client.SubscriptionClient.HandleMessage | src/client/index.js:64-96 | an event reply is appended to the events, a probe is echoed on the connection, anything else changes nothing |
| Client.SubscriptionClient.Heartbeat | src/client/index.js:104-109 | the echo is one heartbeat message with the clock |
| ProtocolAgreement.RequestsAreHandled | src/client/index.js:40-62 | each of the client's three requests reaches the matching server action |
| ProtocolAgreement.EchoIsHeartbeatCommand | src/client/index.js:104-109 | the client's echo is the server's heartbeat command |
| ProtocolAgreement.RepliesBecomeEvents | src/client/index.js:68-85 | the server's probe, fire replies and count replies become the client's echo and matching events with the same stamp and count |
| ProtocolAgreement.ErrorRepliesAreOnlyLogged | src/client/index.js:64-96 | the server's error reply leads to no event on the client and nothing sent back |
| Scenarios.SubscribeIsIdempotent | test/unit/Subscription.test.js:15-27 | three subscribes for one subscriber resolve with the first fire's clock; after an unsubscribe, the next subscribe takes its own clock |
| Scenarios.CountFollowsSubscriptions | test/unit/Subscription.test.js:83-101 | three subscribers, a fourth subscribed twice and then unsubscribed: counts 3, 4, 3 |
| Scenarios.ClearIsolation | test/unit/Subscription.test.js:104-137 | clearing one subscriber leaves the other counted, clearing an absent one changes nothing, clearing all leaves zero |
| Scenarios.FireAndCount | src/server/Subscriptions.js:22-61 | one fire's effect on the keys, the record and the count |
| Scenarios.CountAcrossConnections | test/integration/server.test.js:59-88 | two connections to one server receive counts 0, 1, 2, 1 and the first connection's two subscribe replies carry one stamp |
| Scenarios.FirstConnectionSubscribesTwice | test/integration/server.test.js:68-76 | count, subscribe twice and count on an empty server: replies 0, the stamp twice, then 1 |
| Scenarios.SecondConnectionComesAndGoes | test/integration/server.test.js:78-86 | a second connection subscribing, counting, unsubscribing and counting sees 2 and then 1 |
| Scenarios.FireExchange | src/server/index.js:163-189 | a subscribe or unsubscribe request and its timer's fire produce one reply and one registry step |
| Scenarios.CountExchange | src/server/index.js:191-197 | a count request gets one reply with the current count |
| Scenarios.ErrorReplies | test/integration/server.test.js:90-114 | text that does not decode and a message of unknown type each get exactly one error reply with the fixed message, and nobody is subscribed |
| Scenarios.LateFireAfterClose | src/server/index.js:54-56 | a subscribe timer that fires after its connection closed stores a record that is then counted, and the reply is not written |

## Left out

- The WebSocket transport (`ws`), `listen` and `gracefulShutdown`: the model starts from connections the transport has opened; `OnConnection` adds them to the tracked set. Closing is the `OnClose` handler, and a connection's state is a field.
- `JSON.parse` and `JSON.stringify`: messages are decoded values (`Payload`), and text that does not decode is `NotJson` with the parse error as text. `data.toString()` is not modelled.
- Scheduling by `setTimeout` and `setInterval`, and the two delays: a timer firing is one method call (`FireTimer`, `HeartbeatTick`), so any firing order is allowed. The delays are stored but do not order fires.
- `Date.now()`: the clock is a parameter of each method that reads it. A heartbeat tick reads it once for all connections, whereas the source reads it once per connection, so probes of one tick may differ in stamp. The unit test that two subscribers get different dates depends on the clock advancing, so it is not modelled.
- Console output, the write-callback's error logging, the `'error'` events, and the client's `silenceHeartbeat` flag, which only affects logging.
- The client's re-emission of the socket's `'open'`, `'close'` and `'error'` events. The client's sends are modelled as always written, whatever the socket state.
- `src/constants` is not part of this model. The `Commands` members are the four handled kinds plus `OtherCommand` for any further member, which `#validateCommand` accepts and `#handleCommand` rejects.
- `bin/server.js` and `bin/client.js` (command-line wrappers) are not part of this model.
- Server.SubscribeServer.HeartbeatTick: the eviction of connections not marked alive is commented out in the source, so the model terminates nobody and never resets `isAlive`.

## Behaviour of the code worth knowing

- The eviction of connections that miss a heartbeat is commented out (src/server/index.js:94-98). The model's heartbeat tick therefore terminates nobody.
- The connection handler (src/server/index.js:49-60) never sets `isAlive`, so a connection carries no alive mark until its first heartbeat echo. Were the commented-out `isAlive !== true` test enabled, the first tick would evict every connection that had not echoed yet.
- The client's switch has no `default` branch and the client emits no `'protocolError'` event. An error reply is only logged (`ProtocolAgreement.ErrorRepliesAreOnlyLogged`). The integration tests wait for `'protocolError'` (test/integration/server.test.js:147,158) and call `connectAsync` and `send`, which the client does not define.
- A subscribe timer that fires after its connection closed re-creates the registry entry (src/server/index.js:54-56 runs before the timer at src/server/Subscriptions.js:24-29). That entry is then counted for good (`Scenarios.LateFireAfterClose`).
