/** The notification hook (src/hooks/use-notifications.ts): the list and
    unread count it holds, its reaction to stream messages, and the local
    updates after marking notifications read. Requests are left out: a
    fetch is the response it got (`None` for a failed or throwing
    request), and the PATCH calls are taken to succeed. */
module NotificationsHook {
  import opened Values

  datatype Item = Item(id: string, title: string, message: string, read: bool, createdAt: string)

  /** `n.id === id ? { ...n, read: true } : n` over the list. */
  function MarkRead(items: seq<Item>, id: string): (r: seq<Item>)
    ensures |r| == |items|
    ensures forall i :: 0 <= i < |items| ==>
      r[i] == if items[i].id == id then items[i].(read := true) else items[i]
  {
    seq(|items|, i requires 0 <= i < |items| => if items[i].id == id then items[i].(read := true) else items[i])
  }

  function MarkAll(items: seq<Item>): (r: seq<Item>)
    ensures |r| == |items|
    ensures forall i :: 0 <= i < |items| ==> r[i] == items[i].(read := true)
  {
    seq(|items|, i requires 0 <= i < |items| => items[i].(read := true))
  }

  /** The number of unread items. */
  function Unread(items: seq<Item>): nat {
    if items == [] then 0 else (if items[|items| - 1].read then 0 else 1) + Unread(items[..|items| - 1])
  }

  predicate DistinctIds(items: seq<Item>) {
    forall i, j :: 0 <= i < j < |items| ==> items[i].id != items[j].id
  }

  /** Some unread item has this id. */
  predicate UnreadWithId(items: seq<Item>, id: string) {
    exists i :: 0 <= i < |items| && items[i].id == id && !items[i].read
  }

  /** Marking an id drops the unread count by one when an unread item has
      that id, and leaves it otherwise. */
  lemma {:induction false} UnreadAfterMark(items: seq<Item>, id: string)
    requires DistinctIds(items)
    ensures Unread(MarkRead(items, id)) == Unread(items) - (if UnreadWithId(items, id) then 1 else 0)
  {
    if items != [] {
      var n := |items| - 1;
      var init := items[..n];
      var m := MarkRead(items, id);
      DistinctPrefix(items);
      MarkReadPrefix(items, id);
      UnreadAfterMark(init, id);
      UnreadWithIdLast(items, id);
      assert Unread(m) == (if m[n].read then 0 else 1) + Unread(m[..n]);
    }
  }

  lemma DistinctPrefix(items: seq<Item>)
    requires items != [] && DistinctIds(items)
    ensures DistinctIds(items[..|items| - 1])
  {
    var init := items[..|items| - 1];
    assert forall i :: 0 <= i < |init| ==> init[i] == items[i];
  }

  lemma MarkReadPrefix(items: seq<Item>, id: string)
    requires items != []
    ensures MarkRead(items, id)[..|items| - 1] == MarkRead(items[..|items| - 1], id)
  {
  }

  /** Whether an unread item has the id is decided by the last item when it
      has the id (ids being distinct), and by the others otherwise. */
  lemma UnreadWithIdLast(items: seq<Item>, id: string)
    requires items != [] && DistinctIds(items)
    ensures var n := |items| - 1;
      UnreadWithId(items, id) <==> if items[n].id == id then !items[n].read else UnreadWithId(items[..n], id)
  {
    var n := |items| - 1;
    var init := items[..n];
    if items[n].id == id {
      assert !UnreadWithId(init, id) by {
        forall i | 0 <= i < |init| ensures init[i].id != id { assert init[i] == items[i]; }
      }
    } else {
      if UnreadWithId(items, id) {
        var i :| 0 <= i < |items| && items[i].id == id && !items[i].read;
        assert i < n && init[i] == items[i];
      }
      if UnreadWithId(init, id) {
        var i :| 0 <= i < |init| && init[i].id == id && !init[i].read;
        assert items[i] == init[i];
      }
    }
  }

  lemma {:induction false} UnreadAllRead(items: seq<Item>)
    ensures Unread(MarkAll(items)) == 0
  {
    if items != [] {
      UnreadAllRead(items[..|items| - 1]);
      assert MarkAll(items)[..|items| - 1] == MarkAll(items[..|items| - 1]);
    }
  }

  /** `data && typeof data === "object" && "type" in data && data.type === "connected"` */
  predicate IsConnected(data: Json) {
    data.Obj? && "type" in data.fields && data.fields["type"] == Str("connected")
  }

  /** `onmessage`: a message that parses (`Some`) and is not the greeting
      makes the hook refetch; an unparsable one is ignored. */
  function Refetches(parsed: Option<Json>): (r: bool)
    ensures r <==> parsed.Some? && !IsConnected(parsed.value)
  {
    match parsed
    case None => false
    case Some(data) => !IsConnected(data)
  }

  /** The stream's greeting never triggers a refetch, while any message
      without a `type` does, and so does a non-object value. */
  lemma GreetingIgnored(fields: map<string, Json>)
    ensures !Refetches(Some(Obj(map["type" := Str("connected")])))
    ensures "type" !in fields ==> Refetches(Some(Obj(fields)))
    ensures Refetches(Some(Null)) && Refetches(Some(Num(1)))
    ensures !Refetches(None)
  {
  }

  class Hook {
    var notifications: seq<Item>
    var unreadCount: int
    var loading: bool

    constructor()
      ensures notifications == [] && unreadCount == 0 && loading
    {
      notifications := [];
      unreadCount := 0;
      loading := true;
    }

    /** `fetchNotifications` once its request settled: store the list and
        the count on success, and stop loading either way. */
    method Fetched(response: Option<(seq<Item>, int)>)
      modifies this
      ensures !loading
      ensures response.Some? ==> notifications == response.value.0 && unreadCount == response.value.1
      ensures response.None? ==> notifications == old(notifications) && unreadCount == old(unreadCount)
    {
      if response.Some? {
        notifications := response.value.0;
        unreadCount := response.value.1;
      }
      loading := false;
    }

    /** `markAsRead(id)`: mark that item and decrement the count, not below
        zero, whether or not the item was unread. */
    method MarkAsRead(id: string)
      modifies this`notifications, this`unreadCount
      ensures notifications == MarkRead(old(notifications), id)
      ensures unreadCount == if old(unreadCount) - 1 > 0 then old(unreadCount) - 1 else 0
    {
      notifications := MarkRead(notifications, id);
      unreadCount := if unreadCount - 1 > 0 then unreadCount - 1 else 0;
    }

    method MarkAllAsRead()
      modifies this`notifications, this`unreadCount
      ensures notifications == MarkAll(old(notifications)) && unreadCount == 0
    {
      notifications := MarkAll(notifications);
      unreadCount := 0;
    }
  }

  /** When the count agrees with the list and the marked item is one of the
      unread ones, the decremented count still agrees with the list. */
  lemma CountStaysExact(items: seq<Item>, count: int, i: nat)
    requires DistinctIds(items) && count == Unread(items)
    requires i < |items| && !items[i].read
    ensures (if count - 1 > 0 then count - 1 else 0) == Unread(MarkRead(items, items[i].id))
  {
    UnreadAfterMark(items, items[i].id);
    UnreadPositive(items, i);
  }

  lemma {:induction false} UnreadPositive(items: seq<Item>, i: nat)
    requires i < |items| && !items[i].read
    ensures Unread(items) >= 1
  {
    if i < |items| - 1 {
      UnreadPositive(items[..|items| - 1], i);
    }
  }
}
