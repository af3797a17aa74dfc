/** The client-side stores: toasts (src/stores/toast-store.ts), the chat
    panel (src/stores/chat-store.ts), the sidebar
    (src/stores/sidebar-store.ts) and the signed-in user's role
    (src/hooks/use-user-role.ts). Each store is one object whose actions
    update its fields. */

/** Toasts are appended with fresh ids `toast-1`, `toast-2`, ... from a
    counter that only grows, and removed by id, either explicitly or when
    their four-second timer fires; the timer is the `RemoveToast` call with
    the id `AddToast` returned. */
module ToastStore {
  import opened Values
  import opened Text

  const ExpiryMs: int := 4000

  datatype Toast = Toast(id: string, title: string, description: Option<string>, variant: Option<string>)

  function ToastId(n: nat): string {
    "toast-" + NatToString(n)
  }

  lemma ToastIdInjective(a: nat, b: nat)
    requires ToastId(a) == ToastId(b)
    ensures a == b
  {
    assert ToastId(a)[6..] == NatToString(a);
    assert ToastId(b)[6..] == NatToString(b);
    NatToStringInjective(a, b);
  }

  /** `toasts.filter(t => t.id !== id)` */
  function Without(toasts: seq<Toast>, id: string): (r: seq<Toast>)
    ensures forall i :: 0 <= i < |r| ==> r[i].id != id
    ensures |r| <= |toasts|
  {
    if toasts == [] then []
    else (if toasts[0].id == id then [] else [toasts[0]]) + Without(toasts[1..], id)
  }

  predicate DistinctIds(toasts: seq<Toast>) {
    forall i, j :: 0 <= i < j < |toasts| ==> toasts[i].id != toasts[j].id
  }

  /** Removing an id that no toast has changes nothing. */
  lemma {:induction false} WithoutAbsent(toasts: seq<Toast>, id: string)
    requires forall i :: 0 <= i < |toasts| ==> toasts[i].id != id
    ensures Without(toasts, id) == toasts
  {
    if toasts != [] {
      WithoutAbsent(toasts[1..], id);
    }
  }

  lemma {:induction false} WithoutAppend(a: seq<Toast>, b: seq<Toast>, id: string)
    ensures Without(a + b, id) == Without(a, id) + Without(b, id)
  {
    if a == [] {
      assert a + b == b;
    } else {
      assert (a + b)[0] == a[0] && (a + b)[1..] == a[1..] + b;
      WithoutAppend(a[1..], b, id);
    }
  }

  /** Removing drops exactly the toasts with that id and keeps the others
      in order: a toast is kept iff its id differs. */
  lemma {:induction false} WithoutKeeps(toasts: seq<Toast>, id: string, t: Toast)
    ensures t in Without(toasts, id) <==> t in toasts && t.id != id
  {
    if toasts != [] {
      WithoutKeeps(toasts[1..], id, t);
      assert toasts == [toasts[0]] + toasts[1..];
    }
  }

  /** A toast that expires before anything else happens leaves the list as
      it was before it was added. */
  lemma AddThenExpire(toasts: seq<Toast>, t: Toast)
    requires forall i :: 0 <= i < |toasts| ==> toasts[i].id != t.id
    ensures Without(toasts + [t], t.id) == toasts
  {
    WithoutAppend(toasts, [t], t.id);
    WithoutAbsent(toasts, t.id);
    assert Without([t], t.id) == [] + Without([], t.id);
  }

  class Store {
    /** The module-level `toastId` counter. */
    var counter: nat
    var toasts: seq<Toast>

    /** Every toast's id was issued by the counter, and no two toasts share
        one. */
    ghost predicate Valid()
      reads this
    {
      && DistinctIds(toasts)
      && forall i :: 0 <= i < |toasts| ==> exists n :: 1 <= n <= counter && toasts[i].id == ToastId(n)
    }

    constructor()
      ensures Valid() && counter == 0 && toasts == []
    {
      counter := 0;
      toasts := [];
    }

    /** `addToast`: append the toast under the next id and return that id,
        which the expiry timer removes after `ExpiryMs`. */
    method AddToast(title: string, description: Option<string>, variant: Option<string>) returns (id: string)
      requires Valid()
      modifies this
      ensures Valid()
      ensures counter == old(counter) + 1 && id == ToastId(counter)
      ensures toasts == old(toasts) + [Toast(id, title, description, variant)]
      ensures forall i :: 0 <= i < |old(toasts)| ==> old(toasts)[i].id != id
    {
      counter := counter + 1;
      id := ToastId(counter);
      forall i | 0 <= i < |toasts| ensures toasts[i].id != id {
        var n :| 1 <= n <= counter - 1 && toasts[i].id == ToastId(n);
        if toasts[i].id == id { ToastIdInjective(n, counter); }
      }
      toasts := toasts + [Toast(id, title, description, variant)];
    }

    /** `removeToast(id)`, and the expiry timer. */
    method RemoveToast(id: string)
      requires Valid()
      modifies this`toasts
      ensures Valid()
      ensures toasts == Without(old(toasts), id)
    {
      var before := toasts;
      toasts := Without(toasts, id);
      forall i | 0 <= i < |toasts| ensures toasts[i] in before { WithoutKeeps(before, id, toasts[i]); }
      assert DistinctIds(toasts) by { WithoutDistinct(before, id); }
    }
  }

  lemma {:induction false} WithoutDistinct(toasts: seq<Toast>, id: string)
    requires DistinctIds(toasts)
    ensures DistinctIds(Without(toasts, id))
  {
    if toasts != [] {
      var rest := toasts[1..];
      assert DistinctIds(rest) by {
        forall i, j | 0 <= i < j < |rest| ensures rest[i].id != rest[j].id { assert rest[i] == toasts[i + 1] && rest[j] == toasts[j + 1]; }
      }
      WithoutDistinct(rest, id);
      var w := Without(rest, id);
      forall t | t in w ensures t.id != toasts[0].id {
        WithoutKeeps(rest, id, t);
        var k :| 0 <= k < |rest| && rest[k] == t;
        assert toasts[k + 1] == t;
      }
    }
  }
}

/** The chat panel: whether it is open and which conversation it shows. */
module ChatStore {
  import opened Values

  class Store {
    var isOpen: bool
    var activeConversationId: Option<string>

    constructor()
      ensures !isOpen && activeConversationId == None
    {
      isOpen := false;
      activeConversationId := None;
    }

    method Toggle()
      modifies this`isOpen
      ensures isOpen == !old(isOpen)
    {
      isOpen := !isOpen;
    }

    method Open()
      modifies this`isOpen
      ensures isOpen
    {
      isOpen := true;
    }

    method Close()
      modifies this`isOpen
      ensures !isOpen
    {
      isOpen := false;
    }

    /** Selecting a conversation, or none, leaves the panel as it is. */
    method SetActiveConversation(id: Option<string>)
      modifies this`activeConversationId
      ensures activeConversationId == id
    {
      activeConversationId := id;
    }

    method OpenWithConversation(id: string)
      modifies this
      ensures isOpen && activeConversationId == Some(id)
    {
      isOpen := true;
      activeConversationId := Some(id);
    }
  }
}

/** The sidebar: collapsed or expanded on desktop, and the mobile drawer. */
module SidebarStore {
  class Store {
    var isOpen: bool
    var isMobileOpen: bool

    constructor()
      ensures isOpen && !isMobileOpen
    {
      isOpen := true;
      isMobileOpen := false;
    }

    method Toggle()
      modifies this`isOpen
      ensures isOpen == !old(isOpen)
    {
      isOpen := !isOpen;
    }

    method ToggleMobile()
      modifies this`isMobileOpen
      ensures isMobileOpen == !old(isMobileOpen)
    {
      isMobileOpen := !isMobileOpen;
    }

    method CloseMobile()
      modifies this`isMobileOpen
      ensures !isMobileOpen
    {
      isMobileOpen := false;
    }
  }
}

/** The signed-in user's role as the client knows it; MEMBER until set. */
module UserRole {
  class Store {
    var role: string

    constructor()
      ensures role == "MEMBER" && UseUserRole() == "MEMBER"
    {
      role := "MEMBER";
    }

    /** `setRole(role)`: every later `useUserRole()` reports the new role. */
    method SetRole(role: string)
      modifies this
      ensures this.role == role && UseUserRole() == role
    {
      this.role := role;
    }

    /** `useUserRole()`: only a read of the stored role; what it reports is
        stated by the constructor and `SetRole`. */
    function UseUserRole(): string
      reads this
    {
      role
    }
  }
}
