/** The notification bell (src/components/layout/notification-bell.tsx):
    the unread badge, the dropdown's open state, which buttons it shows and
    the age of each notification. */
module NotificationBell {
  import opened Values
  import opened Text
  import opened RelativeTime
  import opened NotificationsHook

  /** `formatTime`: `diffMs` is now minus the notification's creation time. */
  function FormatTime(diffMs: int): string {
    Render(Bucket(diffMs))
  }

  /** The badge text: none without unread notifications, the count up to
      nine, and `9+` above. */
  function Badge(unreadCount: int): (r: Option<string>)
    ensures r.None? <==> unreadCount <= 0
    ensures r == Some("9+") <==> unreadCount > 9
    ensures 0 < unreadCount <= 9 ==> r == Some(NatToString(unreadCount)) && |r.value| == 1
  {
    if unreadCount <= 0 then None
    else if unreadCount > 9 then Some("9+")
    else Some(NatToString(unreadCount))
  }

  /** What the open dropdown shows. */
  datatype Dropdown = Dropdown(markAllButton: bool, empty: bool, markButtons: seq<bool>, times: seq<string>)

  /** The dropdown: the mark-all button only with unread notifications, the
      empty message only without notifications, one mark-as-read button per
      unread item, and each item's age; `ages[i]` is the age of item `i` in
      milliseconds. */
  function View(items: seq<Item>, unreadCount: int, ages: seq<int>): (d: Dropdown)
    requires |ages| == |items|
    ensures d.markAllButton <==> unreadCount > 0
    ensures d.empty <==> items == []
    ensures |d.markButtons| == |items| && forall i :: 0 <= i < |items| ==> (d.markButtons[i] <==> !items[i].read)
    ensures |d.times| == |items| && forall i :: 0 <= i < |items| ==> d.times[i] == FormatTime(ages[i])
  {
    Dropdown(unreadCount > 0, |items| == 0,
             seq(|items|, i requires 0 <= i < |items| => !items[i].read),
             seq(|items|, i requires 0 <= i < |items| => FormatTime(ages[i])))
  }

  /** After marking everything read no item shows a mark-as-read button. */
  lemma NoButtonsAfterMarkAll(items: seq<Item>, ages: seq<int>)
    requires |ages| == |items|
    ensures forall i :: 0 <= i < |items| ==> !View(MarkAll(items), 0, ages).markButtons[i]
    ensures !View(MarkAll(items), 0, ages).markAllButton
  {
  }

  /** The bell's open state. */
  class Bell {
    var open: bool

    constructor()
      ensures !open
    {
      open := false;
    }

    /** A click on the bell toggles the dropdown. */
    method Click()
      modifies this
      ensures open == !old(open)
    {
      open := !open;
    }

    /** A mouse-down while open closes it unless it lands inside the
        dropdown; while closed no listener is installed. */
    method MouseDown(inside: bool)
      modifies this
      ensures open == (old(open) && inside)
    {
      if open && !inside {
        open := false;
      }
    }
  }
}
