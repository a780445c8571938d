/**
 * Whole runs of the registry and of the server, each on objects it creates:
 * the sequences of fires and messages the repository's tests drive, with
 * what the model proves they produce.
 */
module Scenarios {
  import opened Wrappers
  import opened Protocol
  import opened ServerErrors
  import opened ServerSubscriptions
  import opened Server
  import ProtocolAgreement

  /** Two subscribes for one subscriber whose timers fire at `t1` and `t2`,
      and a third at `t3`, all resolve with the first fire's clock; after an
      unsubscribe, the next subscribe resolves with its own clock `t4`. */
  method SubscribeIsIdempotent(t1: nat, t2: nat, t3: nat, tu: nat, t4: nat)
    returns (first: nat, second: nat, third: nat, fourth: nat)
    requires t1 > 0
    ensures first == second == third == t1
    ensures fourth == t4
  {
    var registry := new Subscriptions<object>(5, 0);
    var subscriber := new object;
    first := registry.SubscribeFire(subscriber, t1);
    second := registry.SubscribeFire(subscriber, t2);
    third := registry.SubscribeFire(subscriber, t3);
    var _ := registry.UnsubscribeFire(subscriber, tu);
    fourth := registry.SubscribeFire(subscriber, t4);
  }

  /** Three subscribers, then a fourth subscribed twice, then that fourth
      unsubscribed: the counts read 3, 4 and 3. */
  method CountFollowsSubscriptions(now: nat) returns (counts: seq<nat>)
    requires now > 0
    ensures counts == [3, 4, 3]
  {
    var registry := new Subscriptions<int>(0, 0);
    ClearAllCount(registry.table);
    FireAndCount(registry, 1, Subscribing, now);
    assert registry.table.Keys == {1} && ActiveCount(registry.table) == 1;
    FireAndCount(registry, 2, Subscribing, now);
    assert registry.table.Keys == {1, 2} && ActiveCount(registry.table) == 2;
    FireAndCount(registry, 3, Subscribing, now);
    assert registry.table.Keys == {1, 2, 3} && ActiveCount(registry.table) == 3;
    var c1 := registry.SubscribersCount();
    FireAndCount(registry, 4, Subscribing, now);
    assert ActiveCount(registry.table) == 4;
    FireAndCount(registry, 4, Subscribing, now);
    assert ActiveCount(registry.table) == 4;
    var c2 := registry.SubscribersCount();
    FireAndCount(registry, 4, Unsubscribing, now);
    var c3 := registry.SubscribersCount();
    counts := [c1, c2, c3];
  }

  /** Clearing one subscriber leaves the others counted; clearing an
      absent one changes nothing; clearing all leaves none. */
  method ClearIsolation(now: nat) returns (afterClear: nat, afterClearAll: nat)
    requires now > 0
    ensures afterClear == 1 && afterClearAll == 0
  {
    var registry := new Subscriptions<int>(0, 0);
    ClearAllCount(registry.table);
    FireAndCount(registry, 1, Subscribing, now);
    FireAndCount(registry, 2, Subscribing, now);
    ClearCount(registry.table, 1);
    registry.Clear(1);
    ClearCount(registry.table, 3);
    registry.Clear(3);
    afterClear := registry.SubscribersCount();
    registry.ClearAll();
    afterClearAll := registry.SubscribersCount();
  }

  /** One fire on `registry`, with its effect on the keys and the count. */
  method FireAndCount(registry: Subscriptions<int>, s: int, dir: Direction, now: nat)
    requires now > 0
    modifies registry`table
    ensures registry.table.Keys == old(registry.table.Keys) + {s}
    ensures registry.table[s] == Record(dir, FireStamp(old(registry.table), s, dir, now))
    ensures dir == Subscribing ==> Counted(registry.table[s])
    ensures dir == Unsubscribing ==> !Counted(registry.table[s])
    ensures var was := s in old(registry.table) && Counted(old(registry.table)[s]);
      ActiveCount(registry.table) ==
        if dir == Subscribing then (if was then old(ActiveCount(registry.table)) else old(ActiveCount(registry.table)) + 1)
        else (if was then old(ActiveCount(registry.table)) - 1 else old(ActiveCount(registry.table)))
  {
    FireCount(registry.table, s, dir, now);
    var at;
    if dir == Subscribing {
      at := registry.SubscribeFire(s, now);
    } else {
      at := registry.UnsubscribeFire(s, now);
    }
  }

  /** Two connections to one server, with the clock reading `t` when
      messages arrive and `t + k` when the k-th registry timer fires: the
      first connection counts, subscribes twice and counts; the second
      subscribes, counts, unsubscribes and counts. The counts read 0, 1, 2
      and 1 and both subscribe replies of the first connection carry the
      same stamp. */
  method CountAcrossConnections(t: nat) returns (firstReplies: seq<Payload>, secondReplies: seq<Payload>)
    requires t > 0
    ensures firstReplies == [CountReply(0, t), SubscribedReply(t + 1), SubscribedReply(t + 1), CountReply(1, t)]
    ensures secondReplies == [SubscribedReply(t + 3), CountReply(2, t), UnsubscribedReply(t + 4), CountReply(1, t)]
  {
    var server := new SubscribeServer(1000, 5, 10);
    var first := new Connection(Open);
    var second := new Connection(Open);
    server.OnConnection(first);
    server.OnConnection(second);
    ClearAllCount(server.subscriptions.table);
    FirstConnectionSubscribesTwice(server, first, t);
    SecondConnectionComesAndGoes(server, second, t);
    firstReplies := first.outbox;
    secondReplies := second.outbox;
  }

  /** The first half of CountAcrossConnections: count, subscribe, subscribe, count. */
  method FirstConnectionSubscribesTwice(server: SubscribeServer, first: Connection, t: nat)
    requires t > 0 && first.readyState == Open && first.outbox == []
    requires server.subscriptions.table == map[] && server.pending == []
    modifies server`pending, server.subscriptions`table, first`outbox, first`isAlive
    ensures server.pending == []
    ensures server.subscriptions.table.Keys == {first} && ActiveCount(server.subscriptions.table) == 1
    ensures first.outbox == [CountReply(0, t), SubscribedReply(t + 1), SubscribedReply(t + 1), CountReply(1, t)]
  {
    ClearAllCount(server.subscriptions.table);
    CountExchange(server, first, t);
    FireExchange(server, first, Subscribing, t, t + 1);
    assert server.subscriptions.table[first] == Subscribed(t + 1);
    FireExchange(server, first, Subscribing, t, t + 2);
    CountExchange(server, first, t);
  }

  /** The second half of CountAcrossConnections: subscribe, count, unsubscribe, count. */
  method SecondConnectionComesAndGoes(server: SubscribeServer, second: Connection, t: nat)
    requires t > 0 && second.readyState == Open && second.outbox == []
    requires second !in server.subscriptions.table && ActiveCount(server.subscriptions.table) == 1
    requires server.pending == []
    modifies server`pending, server.subscriptions`table, second`outbox, second`isAlive
    ensures second.outbox == [SubscribedReply(t + 3), CountReply(2, t), UnsubscribedReply(t + 4), CountReply(1, t)]
  {
    FireExchange(server, second, Subscribing, t, t + 3);
    CountExchange(server, second, t);
    FireExchange(server, second, Unsubscribing, t, t + 4);
    CountExchange(server, second, t);
  }

  /** A `subscribe` or `unsubscribe` request from an open connection and the
      fire of the timer it starts: one reply, one registry step, and the
      count moves as FireCount says. */
  method FireExchange(server: SubscribeServer, client: Connection, dir: Direction, t: nat, fire: nat)
    requires fire > 0 && client.readyState == Open && server.pending == []
    modifies server`pending, server.subscriptions`table, client`outbox, client`isAlive
    ensures server.pending == []
    ensures server.subscriptions.table == AfterFire(old(server.subscriptions.table), client, dir, fire)
    ensures server.subscriptions.table.Keys == old(server.subscriptions.table.Keys) + {client}
    ensures client.outbox == old(client.outbox) + [FireReply(dir, FireStamp(old(server.subscriptions.table), client, dir, fire))]
    ensures var m := old(server.subscriptions.table);
      var was := client in m && Counted(m[client]);
      ActiveCount(server.subscriptions.table) ==
        if dir == Subscribing then (if was then ActiveCount(m) else ActiveCount(m) + 1)
        else (if was then ActiveCount(m) - 1 else ActiveCount(m))
  {
    ProtocolAgreement.RequestsAreHandled();
    FireCount(server.subscriptions.table, client, dir, fire);
    var c := if dir == Subscribing then Command.Subscribe else Command.Unsubscribe;
    server.HandleMessage(client, Json(Request(c)), t);
    server.FireTimer(0, fire);
  }

  /** A `count-subscribers` request from an open connection: one reply with
      the current count, and nothing else changes. */
  method CountExchange(server: SubscribeServer, client: Connection, t: nat)
    requires client.readyState == Open
    modifies server`pending, client`outbox, client`isAlive
    ensures server.pending == old(server.pending)
    ensures client.outbox == old(client.outbox) + [CountReply(ActiveCount(server.subscriptions.table), t)]
  {
    ProtocolAgreement.RequestsAreHandled();
    server.HandleMessage(client, Json(Request(CountSubscribers)), t);
  }

  /** Text that is not JSON, and a well-formed message of an unknown type,
      each draw exactly one error reply with the fixed message, and nothing
      else changes. */
  method ErrorReplies(t: nat, parseError: string) returns (replies: seq<Payload>, count: nat)
    ensures replies == [ErrorReply(BadPayloadMessage, t), ErrorReply(InvalidCommandMessage, t)]
    ensures count == 0
  {
    var server := new SubscribeServer();
    var client := new Connection(Open);
    server.OnConnection(client);
    server.HandleMessage(client, Decoded.NotJson(parseError), t);
    server.HandleMessage(client, Json(Obj(Some(Foreign("Unknown")), None, None, None, None)), t);
    replies := client.outbox;
    count := server.subscriptions.SubscribersCount();
  }

  /** A connection that closes while its subscribe timer is pending: the
      close handler clears its entry, but the timer still fires afterwards
      and stores a new record, which the count includes from then on. The
      reply to the closed connection is not written. */
  method LateFireAfterClose(t: nat, fire: nat) returns (count: nat, replies: seq<Payload>)
    requires fire > 0
    ensures count == 1 && replies == []
  {
    var server := new SubscribeServer();
    var client := new Connection(Open);
    server.OnConnection(client);
    server.HandleMessage(client, Json(Request(Subscribe)), t);
    client.readyState := Closed;
    server.OnClose(client);
    var m := server.subscriptions.table;
    server.FireTimer(0, fire);
    FireCount(m, client, Subscribing, fire);
    count := server.subscriptions.SubscribersCount();
    replies := client.outbox;
  }
}
