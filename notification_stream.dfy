/** One connection of GET /api/notifications/stream
    (src/app/api/notifications/stream/route.ts): an unauthenticated request is
    refused; otherwise the stream's `start` greets the client, registers the
    controller with the notification registry and schedules a keep-alive;
    a failed keep-alive or the cleanup closure unregisters it again. Each
    firing of the interval is an explicit `Fire` call. */
module NotificationStream {
  import opened Values
  import opened EventStream
  import opened Notifications

  /** Period of the keep-alive interval, in milliseconds. */
  const PingIntervalMs: int := 30000

  /** A 401 with body "Unauthorized", or a 200 whose body is the stream. */
  datatype StreamResponse = Unauthorized | Streaming(headers: seq<Header>)

  /** The observable effects of one connection, in the order they happen. */
  datatype Effect = Enqueued(frame: Frame) | Registered(userId: string) | IntervalSet(periodMs: int) | IntervalCleared | Unregistered

  /** The frames among the effects. */
  function Sent(trace: seq<Effect>): seq<Frame> {
    if trace == [] then []
    else (if trace[0].Enqueued? then [trace[0].frame] else []) + Sent(trace[1..])
  }

  lemma {:induction false} SentAppend(a: seq<Effect>, b: seq<Effect>)
    ensures Sent(a + b) == Sent(a) + Sent(b)
  {
    if a == [] {
      assert a + b == b;
    } else {
      assert (a + b)[0] == a[0] && (a + b)[1..] == a[1..] + b;
      SentAppend(a[1..], b);
    }
  }

  lemma StartSent(userId: string)
    ensures Sent([Enqueued(Data(ConnectedPayload)), Registered(userId), IntervalSet(PingIntervalMs)]) == [Data(ConnectedPayload)]
  {
    var t := [Enqueued(Data(ConnectedPayload)), Registered(userId), IntervalSet(PingIntervalMs)];
    assert t[1..] == [Registered(userId), IntervalSet(PingIntervalMs)];
    assert t[1..][1..] == [IntervalSet(PingIntervalMs)];
    assert t[1..][1..][1..] == [];
    assert Sent(t[1..][1..]) == [] + Sent([]);
    assert Sent(t[1..]) == [] + Sent(t[1..][1..]);
    assert Sent(t) == [Data(ConnectedPayload)] + Sent(t[1..]);
  }

  /** `n` keep-alive frames. */
  function Pings(n: nat): seq<Frame> {
    if n == 0 then [] else Pings(n - 1) + [Comment("ping")]
  }

  /** The frames written by `start`: the greeting followed by the
      keep-alives so far. */
  function Greeting(pings: nat): seq<Frame> {
    [Data(ConnectedPayload)] + Pings(pings)
  }

  class Connection {
    const userId: string
    const sink: Sink
    /** When `start` ran, in milliseconds. */
    const startedAt: int
    var intervalActive: bool
    /** When the interval fires next. */
    var nextPingAt: int
    /** Keep-alive frames written so far. */
    var pings: nat
    var trace: seq<Effect>

    ghost predicate Valid()
      reads this
    {
      && |trace| >= 3
      && trace[..3] == [Enqueued(Data(ConnectedPayload)), Registered(userId), IntervalSet(PingIntervalMs)]
      && Sent(trace) == Greeting(pings)
      && nextPingAt == startedAt + PingIntervalMs * (pings + 1)
    }

    /** `start(controller)`: enqueue the `{"type":"connected"}` frame, then
        register the controller for the user, then schedule the keep-alive. */
    constructor Start(reg: Registry, userId: string, sink: Sink, now: int)
      modifies reg`clients
      ensures Valid()
      ensures this.userId == userId && this.sink == sink && startedAt == now
      ensures trace == [Enqueued(Data(ConnectedPayload)), Registered(userId), IntervalSet(PingIntervalMs)]
      ensures reg.clients == old(reg.clients) + [Client(userId, sink)]
      ensures intervalActive && pings == 0 && nextPingAt == now + PingIntervalMs
    {
      this.userId := userId;
      this.sink := sink;
      startedAt := now;
      trace := [Enqueued(Data(ConnectedPayload))];
      intervalActive := false;
      pings := 0;
      nextPingAt := now + PingIntervalMs;
      new;
      reg.Add(userId, sink);
      trace := trace + [Registered(userId)];
      intervalActive := true;
      trace := trace + [IntervalSet(PingIntervalMs)];
      StartSent(userId);
    }

    /** One firing of the keep-alive: write `: ping`; if the write throws,
        clear the interval and unregister the controller. */
    method Fire(reg: Registry, dead: set<Sink>)
      requires Valid() && intervalActive
      modifies this, reg`clients
      ensures Valid()
      ensures sink !in dead ==>
        && trace == old(trace) + [Enqueued(Comment("ping"))] && pings == old(pings) + 1
        && intervalActive && nextPingAt == old(nextPingAt) + PingIntervalMs
        && reg.clients == old(reg.clients)
      ensures sink in dead ==>
        && trace == old(trace) + [IntervalCleared, Unregistered] && pings == old(pings)
        && !intervalActive && reg.clients == Without(old(reg.clients), sink)
    {
      if sink !in dead {
        SentAppend(trace, [Enqueued(Comment("ping"))]);
        assert Sent([Enqueued(Comment("ping"))]) == [Comment("ping")];
        assert (trace + [Enqueued(Comment("ping"))])[..3] == trace[..3];
        trace := trace + [Enqueued(Comment("ping"))];
        pings := pings + 1;
        nextPingAt := nextPingAt + PingIntervalMs;
      } else {
        Cleanup(reg);
      }
    }

    /** The `cleanup` closure: clear the interval, then unregister. */
    method Cleanup(reg: Registry)
      requires Valid()
      modifies this`intervalActive, this`trace, reg`clients
      ensures Valid()
      ensures trace == old(trace) + [IntervalCleared, Unregistered]
      ensures !intervalActive && reg.clients == Without(old(reg.clients), sink)
    {
      SentAppend(trace, [IntervalCleared, Unregistered]);
      assert Sent([IntervalCleared, Unregistered]) == [] by {
        assert [IntervalCleared, Unregistered][1..] == [Unregistered];
        assert [Unregistered][1..] == [];
      }
      assert (trace + [IntervalCleared, Unregistered])[..3] == trace[..3];
      intervalActive := false;
      trace := trace + [IntervalCleared];
      reg.Remove(sink);
      trace := trace + [Unregistered];
      assert trace == old(trace) + [IntervalCleared, Unregistered];
    }

    /** `cancel(reason)`: the stream hands `cancel` the reason for
        cancelling, not the controller, and no JSON reason holds a cleanup
        function, so nothing is cleaned up and the controller stays
        registered. Reading `__cleanup` off an `undefined` or `null` reason
        throws a TypeError, and so does calling a truthy `__cleanup` that is
        not a function; `threw` says which happens. */
    method Cancel(reason: Json) returns (threw: bool)
      ensures threw <==> reason.Undefined? || reason.Null? || Truthy(Values.Get(reason, "__cleanup"))
      ensures trace == old(trace) && intervalActive == old(intervalActive)
    {
      threw := reason.Undefined? || reason.Null? || Truthy(Values.Get(reason, "__cleanup"));
    }
  }

  /** GET: refuse without a user; otherwise build the stream, which runs
      `start` at once, and answer with the event-stream headers. */
  method Get(reg: Registry, user: Option<string>, sink: Sink, now: int) returns (resp: StreamResponse, conn: Option<Connection>)
    modifies reg`clients
    ensures user.None? ==> resp == Unauthorized && conn.None? && reg.clients == old(reg.clients)
    ensures user.Some? ==>
              && resp == Streaming(StreamHeaders) && conn.Some? && fresh(conn.value)
              && conn.value.Valid() && conn.value.userId == user.value && conn.value.sink == sink
              && reg.clients == old(reg.clients) + [Client(user.value, sink)]
  {
    if user.None? {
      return Unauthorized, None;
    }
    var c := new Connection.Start(reg, user.value, sink, now);
    return Streaming(StreamHeaders), Some(c);
  }

  lemma {:induction false} PingsCarryNothing(n: nat)
    ensures WellFormed(Pings(n)) && Payloads(Pings(n)) == []
  {
    if n > 0 {
      PingsCarryNothing(n - 1);
      PayloadsAppend(Pings(n - 1), [Comment("ping")]);
    }
  }

  lemma {:induction false} PayloadsAppend(a: seq<Frame>, b: seq<Frame>)
    ensures Payloads(a + b) == Payloads(a) + Payloads(b)
  {
    if a == [] {
      assert a + b == b;
    } else {
      assert (a + b)[0] == a[0] && (a + b)[1..] == a[1..] + b;
      PayloadsAppend(a[1..], b);
    }
  }

  /** Whatever the number of keep-alives, the frames this route writes make
      the client dispatch exactly one event: the greeting. */
  lemma OnlyGreetingIsDispatched(pings: nat)
    ensures Events(Stream(Greeting(pings))) == [ConnectedPayload]
  {
    PingsCarryNothing(pings);
    var g := [Data(ConnectedPayload)];
    assert WellFormed(g) && Payloads(g) == [ConnectedPayload];
    WellFormedAppend(g, Pings(pings));
    PayloadsAppend(g, Pings(pings));
    var fs := Greeting(pings);
    RoundTrip(fs);
  }

  /** Cleaning up twice leaves the registry as one cleanup did, provided the
      controller was registered at most once, which a connection's own
      registration of a fresh controller guarantees. */
  lemma CleanupTwiceHarmless(clients: seq<Client>, userId: string, sink: Sink)
    requires UniqueSinks(clients) && forall j :: 0 <= j < |clients| ==> clients[j].sink != sink
    ensures UniqueSinks(clients + [Client(userId, sink)])
    ensures var once := Without(clients + [Client(userId, sink)], sink);
      Without(once, sink) == once && once == clients
  {
    var cs := clients + [Client(userId, sink)];
    assert forall j :: 0 <= j < |cs| ==> cs[j] == (if j < |clients| then clients[j] else Client(userId, sink));
    AddThenRemove(clients, userId, sink);
    WithoutUnique(cs, sink);
  }
}
