/** The server-sent-event registry of src/lib/notifications.ts: a
    process-wide ordered list of (user, stream controller) entries, appended
    to on connect, spliced on disconnect, and walked to push a notification
    frame to every connection of one user. A controller whose `enqueue` throws
    is evicted during the walk. Controllers are opaque `Sink` references;
    which of them throw is the `dead` set given to each dispatch. */
module Notifications {
  import opened EventStream

  /** An opaque stream controller: two sinks are the same controller exactly
      when their handles are equal. */
  datatype Sink = Sink(handle: nat)

  datatype Client = Client(userId: string, sink: Sink)

  /** One attempted `enqueue` of a frame into a sink. */
  datatype Write = Write(sink: Sink, frame: string)

  /** The arguments of `createNotification`. */
  datatype NotificationInput = NotificationInput(title: string, message: string, userId: string)

  /** A stored notification row; the id is assigned by the database and a new
      row starts unread. */
  datatype Notification = Notification(id: string, title: string, message: string, userId: string, read: bool)

  /** `findIndex((c) => c.controller === sink)`. */
  function FindIndex(clients: seq<Client>, sink: Sink): (i: int)
    ensures -1 <= i < |clients|
    ensures i >= 0 ==> clients[i].sink == sink && forall j :: 0 <= j < i ==> clients[j].sink != sink
    ensures i == -1 ==> forall j :: 0 <= j < |clients| ==> clients[j].sink != sink
  {
    if clients == [] then -1
    else if clients[0].sink == sink then 0
    else
      var k := FindIndex(clients[1..], sink);
      if k == -1 then -1 else k + 1
  }

  /** The list after `removeSSEClient(sink)`: the first entry holding the
      sink is spliced out; nothing happens when there is none. */
  function Without(clients: seq<Client>, sink: Sink): (r: seq<Client>)
    ensures FindIndex(clients, sink) == -1 ==> r == clients
    ensures FindIndex(clients, sink) >= 0 ==> |r| == |clients| - 1
  {
    var i := FindIndex(clients, sink);
    if i == -1 then clients else clients[..i] + clients[i + 1..]
  }

  /** No controller is registered twice. */
  predicate UniqueSinks(clients: seq<Client>) {
    forall j, k :: 0 <= j < |clients| && 0 <= k < |clients| && clients[j].sink == clients[k].sink ==> j == k
  }

  /** The sinks that some write went to. */
  function SinksOf(ws: seq<Write>): set<Sink> {
    set k | 0 <= k < |ws| :: ws[k].sink
  }

  /** One pass of the notify loop, from index `i` on, reproducing how
      `for…of` walks an array that is spliced under it: after an entry is
      evicted the next entry moves into its slot, and the walk moves past it.
      Result: the list afterwards and the writes attempted, in order. */
  function Dispatch(clients: seq<Client>, i: int, userId: string, frame: string, dead: set<Sink>): (seq<Client>, seq<Write>)
    requires 0 <= i
    decreases |clients| - i
  {
    if i >= |clients| then (clients, [])
    else
      var c := clients[i];
      if c.userId != userId then Dispatch(clients, i + 1, userId, frame, dead)
      else
        var next :=
          if c.sink in dead then Dispatch(Without(clients, c.sink), i + 1, userId, frame, dead)
          else Dispatch(clients, i + 1, userId, frame, dead);
        (next.0, [Write(c.sink, frame)] + next.1)
  }

  /** Every entry of the user, in list order: what a pass with no failing
      sink writes to. */
  function Targets(clients: seq<Client>, userId: string, frame: string): seq<Write> {
    if clients == [] then []
    else (if clients[0].userId == userId then [Write(clients[0].sink, frame)] else [])
         + Targets(clients[1..], userId, frame)
  }

  /** `broadcastToOrg`: one notify pass per user of the organization, in the
      order the users were returned, each on the list the previous pass left. */
  function Broadcast(clients: seq<Client>, users: seq<string>, frame: string, dead: set<Sink>): (seq<Client>, seq<Write>)
    decreases |users|
  {
    if users == [] then (clients, [])
    else
      var first := Dispatch(clients, 0, users[0], frame, dead);
      var rest := Broadcast(first.0, users[1..], frame, dead);
      (rest.0, first.1 + rest.1)
  }

  function AllTargets(clients: seq<Client>, users: seq<string>, frame: string): seq<Write> {
    if users == [] then [] else Targets(clients, users[0], frame) + AllTargets(clients, users[1..], frame)
  }

  class Registry {
    /** `sseClients` */
    var clients: seq<Client>
    /** The notification table, in insertion order. */
    var rows: seq<Notification>

    constructor ()
      ensures clients == [] && rows == []
    {
      clients := [];
      rows := [];
    }

    /** `addSSEClient`: append, with no de-duplication. */
    method Add(userId: string, sink: Sink)
      modifies this`clients
      ensures clients == old(clients) + [Client(userId, sink)]
    {
      clients := clients + [Client(userId, sink)];
    }

    /** `removeSSEClient` */
    method Remove(sink: Sink)
      modifies this`clients
      ensures clients == Without(old(clients), sink)
    {
      var i := FindIndex(clients, sink);
      if i != -1 {
        clients := clients[..i] + clients[i + 1..];
      }
    }

    /** The loop shared by `notifySSEClients` and each user of
        `broadcastToOrg`: an index walk over the live list, writing `frame` to
        every entry of `userId` and evicting the sinks that throw. */
    method DispatchFrame(userId: string, frame: string, dead: set<Sink>) returns (writes: seq<Write>)
      modifies this`clients
      ensures clients == Dispatch(old(clients), 0, userId, frame, dead).0
      ensures writes == Dispatch(old(clients), 0, userId, frame, dead).1
    {
      writes := [];
      var i := 0;
      while i < |clients|
        invariant 0 <= i
        invariant Dispatch(old(clients), 0, userId, frame, dead).0 == Dispatch(clients, i, userId, frame, dead).0
        invariant Dispatch(old(clients), 0, userId, frame, dead).1 == writes + Dispatch(clients, i, userId, frame, dead).1
        decreases |clients| - i
      {
        var c := clients[i];
        if c.userId == userId {
          writes := writes + [Write(c.sink, frame)];
          if c.sink in dead {
            Remove(c.sink);
          }
        }
        i := i + 1;
      }
    }

    /** `notifySSEClients(userId, data)` with `data` already serialized. */
    method Notify(userId: string, payload: string, dead: set<Sink>) returns (writes: seq<Write>)
      modifies this`clients
      ensures clients == Dispatch(old(clients), 0, userId, DataFrame(payload), dead).0
      ensures writes == Dispatch(old(clients), 0, userId, DataFrame(payload), dead).1
    {
      writes := DispatchFrame(userId, DataFrame(payload), dead);
    }

    /** `createNotification`: store the row first, then notify its user with
        the stored row (id included), then return that row. */
    method CreateNotification(input: NotificationInput, id: string, encode: Notification -> string, dead: set<Sink>)
      returns (n: Notification, writes: seq<Write>)
      modifies this
      ensures n == Notification(id, input.title, input.message, input.userId, false)
      ensures rows == old(rows) + [n]
      ensures clients == Dispatch(old(clients), 0, input.userId, DataFrame(encode(n)), dead).0
      ensures writes == Dispatch(old(clients), 0, input.userId, DataFrame(encode(n)), dead).1
    {
      n := Notification(id, input.title, input.message, input.userId, false);
      rows := rows + [n];
      writes := Notify(input.userId, encode(n), dead);
    }

    /** The body of `broadcastToOrg` once the organization's user ids are
        known, with `data` already serialized. */
    method BroadcastToOrg(users: seq<string>, payload: string, dead: set<Sink>) returns (writes: seq<Write>)
      modifies this`clients
      ensures clients == Broadcast(old(clients), users, DataFrame(payload), dead).0
      ensures writes == Broadcast(old(clients), users, DataFrame(payload), dead).1
    {
      var frame := DataFrame(payload);
      writes := [];
      assert users[0..] == users;
      for j := 0 to |users|
        invariant Broadcast(old(clients), users, frame, dead).0 == Broadcast(clients, users[j..], frame, dead).0
        invariant Broadcast(old(clients), users, frame, dead).1 == writes + Broadcast(clients, users[j..], frame, dead).1
      {
        assert users[j..][1..] == users[j + 1..];
        var ws := DispatchFrame(users[j], frame, dead);
        writes := writes + ws;
      }
    }
  }

  // ---- add / remove ----

  lemma {:induction false} FindIndexAppend(clients: seq<Client>, c: Client)
    requires forall j :: 0 <= j < |clients| ==> clients[j].sink != c.sink
    ensures FindIndex(clients + [c], c.sink) == |clients|
  {
    var cs := clients + [c];
    assert cs[|clients|].sink == c.sink;
  }

  /** Removing a controller right after registering it (when it was not
      registered before) restores the list. */
  lemma AddThenRemove(clients: seq<Client>, userId: string, sink: Sink)
    requires forall j :: 0 <= j < |clients| ==> clients[j].sink != sink
    ensures Without(clients + [Client(userId, sink)], sink) == clients
  {
    FindIndexAppend(clients, Client(userId, sink));
    assert (clients + [Client(userId, sink)])[..|clients|] == clients;
  }

  /** Removal keeps every entry that does not hold the sink, takes away only
      the first one that does, and keeps the others in their order. */
  lemma WithoutShape(clients: seq<Client>, sink: Sink)
    ensures var i := FindIndex(clients, sink);
      i >= 0 ==> Without(clients, sink) == clients[..i] + clients[i + 1..] && multiset(Without(clients, sink)) + multiset{clients[i]} == multiset(clients)
    ensures forall c :: c in Without(clients, sink) ==> c in clients
    ensures forall c :: c in clients && c.sink != sink ==> c in Without(clients, sink)
  {
    var i := FindIndex(clients, sink);
    if i >= 0 {
      SpliceMultiset(clients, i);
      SpliceMembers(clients, i);
      forall c | c in clients && c.sink != sink ensures c in Without(clients, sink) {
        var j :| 0 <= j < |clients| && clients[j] == c;
      }
    }
  }

  /** Splicing out position `i` takes away exactly that element. */
  lemma SpliceMultiset<T>(s: seq<T>, i: nat)
    requires i < |s|
    ensures multiset(s[..i] + s[i + 1..]) + multiset{s[i]} == multiset(s)
  {
    assert s == s[..i] + [s[i]] + s[i + 1..];
  }

  lemma SpliceMembers<T>(s: seq<T>, i: nat)
    requires i < |s|
    ensures forall x :: x in s[..i] + s[i + 1..] ==> x in s
    ensures forall j :: 0 <= j < |s| && j != i ==> s[j] in s[..i] + s[i + 1..]
  {
    var r := s[..i] + s[i + 1..];
    forall j | 0 <= j < |s| && j != i ensures s[j] in r {
      if j < i { assert r[j] == s[j]; } else { assert r[j - 1] == s[j]; }
    }
  }

  /** With no controller registered twice, removal leaves no entry of that
      controller and keeps the list duplicate-free; so a second removal, as
      a repeated cleanup does, changes nothing. */
  lemma {:induction false} WithoutUnique(clients: seq<Client>, sink: Sink)
    requires UniqueSinks(clients)
    ensures UniqueSinks(Without(clients, sink))
    ensures forall c :: c in Without(clients, sink) ==> c.sink != sink
    ensures Without(Without(clients, sink), sink) == Without(clients, sink)
  {
    var i := FindIndex(clients, sink);
    var r := Without(clients, sink);
    if i >= 0 {
      assert forall k :: 0 <= k < |r| ==> r[k] == (if k < i then clients[k] else clients[k + 1]);
      forall c | c in r ensures c.sink != sink {
        var k :| 0 <= k < |r| && r[k] == c;
      }
      assert forall k :: 0 <= k < |r| ==> r[k].sink != sink;
    }
  }

  // ---- one notify pass ----

  /** Writes go only to entries of the target user that were registered when
      the pass began, and every write carries the one frame. */
  lemma {:induction false} DispatchTargetsOnly(clients: seq<Client>, i: int, userId: string, frame: string, dead: set<Sink>)
    requires 0 <= i
    ensures forall k :: 0 <= k < |Dispatch(clients, i, userId, frame, dead).1| ==>
      Dispatch(clients, i, userId, frame, dead).1[k].frame == frame
      && Client(userId, Dispatch(clients, i, userId, frame, dead).1[k].sink) in clients
    decreases |clients| - i
  {
    if i < |clients| {
      var c := clients[i];
      if c.userId != userId {
        DispatchTargetsOnly(clients, i + 1, userId, frame, dead);
      } else if c.sink in dead {
        var shorter := Without(clients, c.sink);
        DispatchTargetsOnly(shorter, i + 1, userId, frame, dead);
        WithoutShape(clients, c.sink);
        var ws := Dispatch(shorter, i + 1, userId, frame, dead).1;
        assert Dispatch(clients, i, userId, frame, dead).1 == [Write(c.sink, frame)] + ws;
        forall k | 0 <= k < |ws| ensures Client(userId, ws[k].sink) in clients {
          assert Client(userId, ws[k].sink) in shorter;
        }
      } else {
        DispatchTargetsOnly(clients, i + 1, userId, frame, dead);
      }
    }
  }

  /** A pass only removes entries, and only those whose sink threw on a
      write of this pass. */
  lemma SinksOfCons(w: Write, ws: seq<Write>)
    ensures SinksOf([w] + ws) == {w.sink} + SinksOf(ws)
  {
    var all := [w] + ws;
    assert all[0] == w;
    forall k | 0 <= k < |ws| ensures ws[k].sink in SinksOf(all) {
      assert all[k + 1] == ws[k];
    }
    forall k | 0 <= k < |all| ensures all[k].sink in {w.sink} + SinksOf(ws) {
      if k > 0 { assert all[k] == ws[k - 1]; }
    }
  }

  lemma {:induction false} DispatchEvictsOnlyFailed(clients: seq<Client>, i: int, userId: string, frame: string, dead: set<Sink>)
    requires 0 <= i
    ensures |Dispatch(clients, i, userId, frame, dead).0| <= |clients|
    ensures forall c :: c in Dispatch(clients, i, userId, frame, dead).0 ==> c in clients
    ensures forall c :: c in clients && c !in Dispatch(clients, i, userId, frame, dead).0 ==>
      c.sink in dead && c.sink in SinksOf(Dispatch(clients, i, userId, frame, dead).1)
    decreases |clients| - i
  {
    if i < |clients| {
      var c := clients[i];
      if c.userId != userId {
        DispatchEvictsOnlyFailed(clients, i + 1, userId, frame, dead);
      } else if c.sink in dead {
        var shorter := Without(clients, c.sink);
        DispatchEvictsOnlyFailed(shorter, i + 1, userId, frame, dead);
        WithoutShape(clients, c.sink);
        var next := Dispatch(shorter, i + 1, userId, frame, dead);
        SinksOfCons(Write(c.sink, frame), next.1);
        assert Dispatch(clients, i, userId, frame, dead) == (next.0, [Write(c.sink, frame)] + next.1);
      } else {
        DispatchEvictsOnlyFailed(clients, i + 1, userId, frame, dead);
        var next := Dispatch(clients, i + 1, userId, frame, dead);
        SinksOfCons(Write(c.sink, frame), next.1);
        assert Dispatch(clients, i, userId, frame, dead) == (next.0, [Write(c.sink, frame)] + next.1);
      }
    }
  }

  /** With no controller registered twice, every sink that threw during the
      pass is gone from the list afterwards. */
  lemma {:induction false} DispatchEvictsFailed(clients: seq<Client>, i: int, userId: string, frame: string, dead: set<Sink>)
    requires 0 <= i && UniqueSinks(clients)
    ensures forall k, c ::
              (0 <= k < |Dispatch(clients, i, userId, frame, dead).1|
               && Dispatch(clients, i, userId, frame, dead).1[k].sink in dead
               && c in Dispatch(clients, i, userId, frame, dead).0)
              ==> c.sink != Dispatch(clients, i, userId, frame, dead).1[k].sink
    decreases |clients| - i
  {
    if i < |clients| {
      var c := clients[i];
      if c.userId != userId {
        DispatchEvictsFailed(clients, i + 1, userId, frame, dead);
      } else {
        var before := if c.sink in dead then Without(clients, c.sink) else clients;
        if c.sink in dead {
          WithoutUnique(clients, c.sink);
          DispatchEvictsOnlyFailed(before, i + 1, userId, frame, dead);
        }
        DispatchEvictsFailed(before, i + 1, userId, frame, dead);
        var next := Dispatch(before, i + 1, userId, frame, dead);
        var all := [Write(c.sink, frame)] + next.1;
        assert Dispatch(clients, i, userId, frame, dead) == (next.0, all);
        forall k, d | 0 <= k < |all| && all[k].sink in dead && d in next.0 ensures d.sink != all[k].sink {
          if k > 0 {
            assert all[k] == next.1[k - 1];
          } else {
            assert d in before;
          }
        }
      }
    }
  }

  /** A user with no entry from index `i` on gets nothing written, and the
      list is left as it was. */
  lemma {:induction false} DispatchNoEntries(clients: seq<Client>, i: int, userId: string, frame: string, dead: set<Sink>)
    requires 0 <= i
    requires forall j :: i <= j < |clients| ==> clients[j].userId != userId
    ensures Dispatch(clients, i, userId, frame, dead) == (clients, [])
    decreases |clients| - i
  {
    if i < |clients| {
      DispatchNoEntries(clients, i + 1, userId, frame, dead);
    }
  }

  /** When no sink of the list throws, the pass writes to every entry of the
      user, in list order, and leaves the list unchanged. */
  lemma {:induction false} DispatchNoFailures(clients: seq<Client>, i: int, userId: string, frame: string, dead: set<Sink>)
    requires 0 <= i <= |clients|
    requires forall j :: i <= j < |clients| ==> clients[j].sink !in dead
    ensures Dispatch(clients, i, userId, frame, dead) == (clients, Targets(clients[i..], userId, frame))
    decreases |clients| - i
  {
    if i < |clients| {
      DispatchNoFailures(clients, i + 1, userId, frame, dead);
      assert clients[i..][0] == clients[i] && clients[i..][1..] == clients[i + 1..];
      assert Targets(clients[i..], userId, frame)
          == (if clients[i].userId == userId then [Write(clients[i].sink, frame)] else [])
             + Targets(clients[i + 1..], userId, frame);
      var c := clients[i];
      var next := Dispatch(clients, i + 1, userId, frame, dead);
      assert c.sink !in dead;
      if c.userId == userId {
        assert Dispatch(clients, i, userId, frame, dead) == (next.0, [Write(c.sink, frame)] + next.1);
      } else {
        assert Dispatch(clients, i, userId, frame, dead) == next;
        assert Targets(clients[i..], userId, frame) == Targets(clients[i + 1..], userId, frame);
      }
    }
  }

  /** The walk skips the entry right after an evicted one: with two
      connections of the same user where the first throws, the second is
      still registered but receives nothing in that pass. */
  lemma DispatchSkipsNext(frame: string)
    ensures Dispatch([Client("u", Sink(1)), Client("u", Sink(2))], 0, "u", frame, {Sink(1)})
         == ([Client("u", Sink(2))], [Write(Sink(1), frame)])
  {
    var cs := [Client("u", Sink(1)), Client("u", Sink(2))];
    assert FindIndex(cs, Sink(1)) == 0;
    assert Without(cs, Sink(1)) == [Client("u", Sink(2))];
    assert Dispatch([Client("u", Sink(2))], 1, "u", frame, {Sink(1)}) == ([Client("u", Sink(2))], []);
    assert Dispatch(cs, 0, "u", frame, {Sink(1)})
        == (Dispatch([Client("u", Sink(2))], 1, "u", frame, {Sink(1)}).0,
            [Write(Sink(1), frame)] + Dispatch([Client("u", Sink(2))], 1, "u", frame, {Sink(1)}).1);
    assert [Write(Sink(1), frame)] + [] == [Write(Sink(1), frame)];
  }

  // ---- broadcast ----

  /** When no sink throws, the broadcast writes to every registered entry of
      every listed user, user by user, and leaves the list unchanged. */
  lemma {:induction false} BroadcastNoFailures(clients: seq<Client>, users: seq<string>, frame: string, dead: set<Sink>)
    requires forall j :: 0 <= j < |clients| ==> clients[j].sink !in dead
    ensures Broadcast(clients, users, frame, dead) == (clients, AllTargets(clients, users, frame))
    decreases |users|
  {
    if users != [] {
      DispatchNoFailures(clients, 0, users[0], frame, dead);
      assert clients[0..] == clients;
      BroadcastNoFailures(clients, users[1..], frame, dead);
    }
  }

  /** Every frame a broadcast writes is the one data frame. */
  lemma {:induction false} BroadcastFrames(clients: seq<Client>, users: seq<string>, frame: string, dead: set<Sink>)
    ensures forall k :: 0 <= k < |Broadcast(clients, users, frame, dead).1| ==>
      Broadcast(clients, users, frame, dead).1[k].frame == frame
    decreases |users|
  {
    if users != [] {
      DispatchTargetsOnly(clients, 0, users[0], frame, dead);
      var c1 := Dispatch(clients, 0, users[0], frame, dead).0;
      var w1 := Dispatch(clients, 0, users[0], frame, dead).1;
      BroadcastFrames(c1, users[1..], frame, dead);
      var w2 := Broadcast(c1, users[1..], frame, dead).1;
      var all: seq<Write> := w1 + w2;
      assert Broadcast(clients, users, frame, dead).1 == all;
      forall k | 0 <= k < |all| ensures all[k].frame == frame {
        if k >= |w1| { assert all[k] == w2[k - |w1|]; }
      }
    }
  }
}
