/**
 * The server's subscription registry (src/server/Subscriptions.js): a table
 * from subscriber to a one-field record, either `{subscribedAt}` or
 * `{unsubscribedAt}`. A delayed subscribe or unsubscribe is modelled by the
 * step its timer runs when it fires: one atomic read-modify-write of the
 * table, with the clock reading passed in as `now`.
 */
module ServerSubscriptions {

  /** A subscriber's record. It holds exactly one of the two stamps: every
      fire replaces the record wholesale, it never merges into it. */
  datatype Subscription = Subscribed(subscribedAt: nat) | Unsubscribed(unsubscribedAt: nat)

  /** Which of the two timer steps runs. */
  datatype Direction = Subscribing | Unsubscribing

  /** The record a fire in direction `dir` writes. */
  function Record(dir: Direction, at: nat): (r: Subscription)
    ensures r.Subscribed? <==> dir == Subscribing
    ensures (if r.Subscribed? then r.subscribedAt else r.unsubscribedAt) == at
  {
    match dir
    case Subscribing => Subscribed(at)
    case Unsubscribing => Unsubscribed(at)
  }

  /** `subscription && subscription.subscribedAt` (or `.unsubscribedAt`) in
      the registry `m`: the stamp of that direction that `s`'s record holds,
      or 0 when there is no record or the record is of the other kind (a
      missing field is `undefined`, which is as falsy as 0). */
  function Held<S>(m: map<S, Subscription>, s: S, dir: Direction): nat {
    if s !in m then 0
    else match (m[s], dir)
      case (Subscribed(at), Subscribing) => at
      case (Unsubscribed(at), Unsubscribing) => at
      case _ => 0
  }

  /** The stamp a fire returns: the held stamp when it is truthy, else `now`. */
  function FireStamp<S>(m: map<S, Subscription>, s: S, dir: Direction, now: nat): (r: nat)
    ensures r == now || (r > 0 && s in m && m[s] == Record(dir, r))
    ensures Held(m, s, dir) > 0 ==> r == Held(m, s, dir)
    ensures Held(m, s, dir) == 0 ==> r == now
  {
    var held := Held(m, s, dir);
    if held > 0 then held else now
  }

  /** The registry after a fire for `s`: `s`'s record is replaced by one
      that holds only the returned stamp, every other record stays as it was. */
  function AfterFire<S>(m: map<S, Subscription>, s: S, dir: Direction, now: nat): (m': map<S, Subscription>)
    ensures m'.Keys == m.Keys + {s}
    ensures m'[s] == Record(dir, FireStamp(m, s, dir, now))
    ensures forall k :: k in m && k != s ==> m'[k] == m[k]
  {
    m[s := Record(dir, FireStamp(m, s, dir, now))]
  }

  /** `subscription.subscribedAt > 0`: the test the count applies. A record
      holding only `unsubscribedAt` never passes, nor does a zero stamp. */
  predicate Counted(r: Subscription) {
    r.Subscribed? && r.subscribedAt > 0
  }

  /** The subscribers that the count includes. */
  function ActiveSet<S>(m: map<S, Subscription>): (a: set<S>)
    ensures a <= m.Keys
  {
    set k | k in m && Counted(m[k])
  }

  /** The number of active subscribers, as `subscribersCount` computes it. */
  function ActiveCount<S>(m: map<S, Subscription>): nat {
    |ActiveSet(m)|
  }

  // ---------------------------------------------------------------------
  // The registry object
  // ---------------------------------------------------------------------

  class Subscriptions<S(==)> {
    /** The private `Map` from subscriber to record. */
    var table: map<S, Subscription>
    /** Delays before the subscribe and unsubscribe steps run; the model
        runs each step when its timer fires, so they only configure. */
    const subscribeDelay: nat
    const unsubscribeDelay: nat

    constructor(subscribeDelay: nat := 4000, unsubscribeDelay: nat := 8000)
      ensures table == map[]
      ensures this.subscribeDelay == subscribeDelay && this.unsubscribeDelay == unsubscribeDelay
    {
      table := map[];
      this.subscribeDelay := subscribeDelay;
      this.unsubscribeDelay := unsubscribeDelay;
    }

    /** The body of `subscribe`'s timer: reuse a truthy `subscribedAt`, or
        take `now`; store `{subscribedAt: at}` and resolve with `at`. */
    method SubscribeFire(s: S, now: nat) returns (at: nat)
      modifies this`table
      ensures at == FireStamp(old(table), s, Subscribing, now)
      ensures table == AfterFire(old(table), s, Subscribing, now)
      ensures table[s] == Subscribed(at)
    {
      var held := if s in table && table[s].Subscribed? then table[s].subscribedAt else 0;
      at := if held > 0 then held else now;
      table := table[s := Subscribed(at)];
    }

    /** The body of `unsubscribe`'s timer, the mirror image of SubscribeFire. */
    method UnsubscribeFire(s: S, now: nat) returns (at: nat)
      modifies this`table
      ensures at == FireStamp(old(table), s, Unsubscribing, now)
      ensures table == AfterFire(old(table), s, Unsubscribing, now)
      ensures table[s] == Unsubscribed(at)
    {
      var held := if s in table && table[s].Unsubscribed? then table[s].unsubscribedAt else 0;
      at := if held > 0 then held else now;
      table := table[s := Unsubscribed(at)];
    }

    /** Counts the records whose `subscribedAt` is positive, one record at a time. */
    method SubscribersCount() returns (count: nat)
      ensures count == ActiveCount(table)
      ensures count <= |table|
    {
      count := 0;
      var rest := table.Keys;
      ghost var seen: set<S> := {};
      while rest != {}
        invariant rest !! seen && rest + seen == table.Keys
        invariant count == |ActiveSet(table) * seen|
        decreases rest
      {
        var k :| k in rest;
        var subscription := table[k];
        if subscription.Subscribed? && subscription.subscribedAt > 0 {
          assert ActiveSet(table) * (seen + {k}) == ActiveSet(table) * seen + {k};
          count := count + 1;
        } else {
          assert ActiveSet(table) * (seen + {k}) == ActiveSet(table) * seen;
        }
        rest := rest - {k};
        seen := seen + {k};
      }
      assert ActiveSet(table) * seen == ActiveSet(table);
      CountBoundedBySize(table);
    }

    /** `clear`: drops `s`'s record, if there is one. */
    method Clear(s: S)
      modifies this`table
      ensures table == old(table) - {s}
    {
      table := table - {s};
    }

    /** `clearAll`: drops every record. */
    method ClearAll()
      modifies this`table
      ensures table == map[]
    {
      table := map[];
    }
  }

  // ---------------------------------------------------------------------
  // Properties of a single step
  // ---------------------------------------------------------------------

  /** The count never exceeds the number of records. */
  lemma CountBoundedBySize<S>(m: map<S, Subscription>)
    ensures ActiveCount(m) <= |m|
  {
    var a := ActiveSet(m);
    var rest := m.Keys - a;
    assert m.Keys == a + rest;
    assert |m.Keys| == |a| + |rest|;
  }

  /** A fire on a key with a truthy stamp of its own direction is idempotent:
      it returns that stamp and leaves the registry exactly as it was. */
  lemma RefireIsIdempotent<S>(m: map<S, Subscription>, s: S, dir: Direction, now: nat)
    requires Held(m, s, dir) > 0
    ensures FireStamp(m, s, dir, now) == Held(m, s, dir)
    ensures AfterFire(m, s, dir, now) == m
  {
  }

  /** Two fires in the same direction, whatever their clocks, return the same
      stamp once the first was truthy: the second reads what the first wrote. */
  lemma SecondFireReusesFirst<S>(m: map<S, Subscription>, s: S, dir: Direction, t1: nat, t2: nat)
    requires FireStamp(m, s, dir, t1) > 0
    ensures FireStamp(AfterFire(m, s, dir, t1), s, dir, t2) == FireStamp(m, s, dir, t1)
    ensures AfterFire(AfterFire(m, s, dir, t1), s, dir, t2) == AfterFire(m, s, dir, t1)
  {
    RefireIsIdempotent(AfterFire(m, s, dir, t1), s, dir, t2);
  }

  /** A fire in the other direction replaces the record, so the next fire in
      the first direction forgets the old stamp and returns its own clock. */
  lemma OppositeFireResetsStamp<S>(m: map<S, Subscription>, s: S, dir: Direction, t1: nat, t2: nat, t3: nat)
    ensures var back := if dir == Subscribing then Unsubscribing else Subscribing;
      FireStamp(AfterFire(AfterFire(m, s, dir, t1), s, back, t2), s, dir, t3) == t3
  {
  }

  /** Subscribe, unsubscribe, subscribe: with a clock that has moved on, the
      second subscription stamp is later than the first. */
  lemma ResubscribeIsLater<S>(m: map<S, Subscription>, s: S, t1: nat, t2: nat, t3: nat)
    requires Held(m, s, Subscribing) < t3 && t1 < t3
    ensures var first := FireStamp(m, s, Subscribing, t1);
      var m2 := AfterFire(AfterFire(m, s, Subscribing, t1), s, Unsubscribing, t2);
      first < FireStamp(m2, s, Subscribing, t3)
  {
  }

  /** Subscribing raises the count by one exactly when the subscriber was not
      already counted; unsubscribing lowers it by one exactly when it was. */
  lemma FireCount<S>(m: map<S, Subscription>, s: S, dir: Direction, now: nat)
    requires dir == Subscribing ==> now > 0
    ensures dir == Subscribing ==>
      ActiveCount(AfterFire(m, s, dir, now)) == if s in m && Counted(m[s]) then ActiveCount(m) else ActiveCount(m) + 1
    ensures dir == Unsubscribing ==>
      ActiveCount(AfterFire(m, s, dir, now)) == if s in m && Counted(m[s]) then ActiveCount(m) - 1 else ActiveCount(m)
  {
    var m' := AfterFire(m, s, dir, now);
    match dir
    case Subscribing =>
      assert ActiveSet(m') == ActiveSet(m) + {s};
    case Unsubscribing =>
      assert ActiveSet(m') == ActiveSet(m) - {s};
  }

  /** `clear(s)` removes exactly `s`: the count drops by one when `s` was
      counted and is unchanged otherwise; for an absent `s` it is a no-op. */
  lemma ClearCount<S>(m: map<S, Subscription>, s: S)
    ensures (m - {s}).Keys == m.Keys - {s}
    ensures forall k :: k in m && k != s ==> (m - {s})[k] == m[k]
    ensures s !in m ==> m - {s} == m
    ensures ActiveCount(m - {s}) == if s in m && Counted(m[s]) then ActiveCount(m) - 1 else ActiveCount(m)
  {
    assert ActiveSet(m - {s}) == ActiveSet(m) - {s};
  }

  /** After `clearAll` nobody is counted, whatever the registry held. */
  lemma ClearAllCount<S>(m: map<S, Subscription>)
    ensures Apply(m, ClearAll) == map[]
    ensures ActiveCount(Apply(m, ClearAll)) == 0
  {
  }

  // ---------------------------------------------------------------------
  // Sequences of steps: fires interleaved on the single event loop
  // ---------------------------------------------------------------------

  /** One unit of work on the registry, run atomically by the event loop: a
      timer fire, a `clear` (a connection closing) or a `clearAll`. */
  datatype Step<S> = Fire(s: S, dir: Direction, now: nat) | Clear(s: S) | ClearAll

  /** The registry after one step. */
  function Apply<S>(m: map<S, Subscription>, step: Step<S>): map<S, Subscription> {
    match step
    case Fire(s, dir, now) => AfterFire(m, s, dir, now)
    case Clear(s) => m - {s}
    case ClearAll => map[]
  }

  /** The registry after the steps, in order. */
  function Run<S>(m: map<S, Subscription>, steps: seq<Step<S>>): map<S, Subscription>
    decreases |steps|
  {
    if steps == [] then m else Run(Apply(m, steps[0]), steps[1..])
  }

  /** The stamps that `s`'s fires in direction `dir` resolve with, in order. */
  function Resolutions<S(==)>(m: map<S, Subscription>, steps: seq<Step<S>>, s: S, dir: Direction): seq<nat>
    decreases |steps|
  {
    if steps == [] then []
    else
      var mine := match steps[0]
        case Fire(k, d, now) => if k == s && d == dir then [FireStamp(m, s, dir, now)] else []
        case _ => [];
      mine + Resolutions(Apply(m, steps[0]), steps[1..], s, dir)
  }

  /** True when `step` can change `s`'s record. */
  predicate Touches<S(==)>(step: Step<S>, s: S) {
    match step
    case Fire(k, _, _) => k == s
    case Clear(k) => k == s
    case ClearAll => true
  }

  /** True when `step` can take away `s`'s stamp in direction `dir`: a fire
      in the other direction, a `clear` of `s` or a `clearAll`. */
  predicate Disturbs<S(==)>(step: Step<S>, s: S, dir: Direction) {
    match step
    case Fire(k, d, _) => k == s && d != dir
    case Clear(k) => k == s
    case ClearAll => true
  }

  /** Steps that never touch `s` leave its record as it was: fires and
      clears of other subscribers are isolated from it. */
  lemma {:induction false} UntouchedRecordKept<S>(m: map<S, Subscription>, steps: seq<Step<S>>, s: S)
    requires forall i :: 0 <= i < |steps| ==> !Touches(steps[i], s)
    ensures s in Run(m, steps) <==> s in m
    ensures s in m ==> Run(m, steps)[s] == m[s]
    decreases |steps|
  {
    if steps != [] {
      UntouchedRecordKept(Apply(m, steps[0]), steps[1..], s);
    }
  }

  /** Once `s` holds a truthy stamp in direction `dir`, every later fire of
      `s` in that direction resolves with that very stamp, however many there
      are and whatever else runs in between, as long as nothing disturbs it. */
  lemma {:induction false} FiresReuseHeldStamp<S>(m: map<S, Subscription>, steps: seq<Step<S>>, s: S, dir: Direction)
    requires Held(m, s, dir) > 0
    requires forall i :: 0 <= i < |steps| ==> !Disturbs(steps[i], s, dir)
    ensures forall i :: 0 <= i < |Resolutions(m, steps, s, dir)| ==> Resolutions(m, steps, s, dir)[i] == Held(m, s, dir)
    ensures Held(Run(m, steps), s, dir) == Held(m, s, dir)
    decreases |steps|
  {
    if steps != [] {
      var m' := Apply(m, steps[0]);
      assert Held(m', s, dir) == Held(m, s, dir) by {
        match steps[0]
        case Fire(k, d, now) =>
          if k == s { RefireIsIdempotent(m, s, dir, now); }
        case Clear(k) =>
        case ClearAll =>
      }
      FiresReuseHeldStamp(m', steps[1..], s, dir);
    }
  }

  /** Concurrent fires converge: when `s` holds no truthy stamp in direction
      `dir`, the first of its fires there (at clock `t > 0`) and every later
      one that nothing disturbs resolve with the same stamp `t`, the clock of
      the earliest fire. */
  lemma ConcurrentFiresConverge<S>(m: map<S, Subscription>, s: S, dir: Direction, t: nat, steps: seq<Step<S>>)
    requires Held(m, s, dir) == 0 && t > 0
    requires forall i :: 0 <= i < |steps| ==> !Disturbs(steps[i], s, dir)
    ensures var rs := Resolutions(m, [Fire(s, dir, t)] + steps, s, dir);
      |rs| >= 1 && forall i :: 0 <= i < |rs| ==> rs[i] == t
  {
    var all := [Fire(s, dir, t)] + steps;
    assert all[1..] == steps;
    var m' := AfterFire(m, s, dir, t);
    assert Held(m', s, dir) == t;
    FiresReuseHeldStamp(m', steps, s, dir);
  }
}
