/** The sidebar's navigation (src/components/layout/sidebar.tsx): seven
    items, the one for the current path highlighted. */
module Sidebar {
  import opened Text

  datatype NavItem = NavItem(title: string, href: string)

  const NavItems: seq<NavItem> := [
    NavItem("Overview", "/dashboard"),
    NavItem("Analytics", "/dashboard/analytics"),
    NavItem("AI Assistant", "/dashboard/ai"),
    NavItem("Customers", "/dashboard/customers"),
    NavItem("Team", "/dashboard/team"),
    NavItem("Billing", "/dashboard/billing"),
    NavItem("Settings", "/dashboard/settings")]

  /** The overview matches only its own path; every other item matches its
      path and everything below or beside it that starts with it. */
  predicate IsActive(href: string, pathname: string) {
    if href == "/dashboard" then pathname == "/dashboard" else StartsWith(pathname, href)
  }

  lemma PrefixesNest(p: string, a: string, b: string)
    requires StartsWith(p, a) && StartsWith(p, b) && |a| <= |b|
    ensures StartsWith(b, a)
  {
    assert b[..|a|] == p[..|b|][..|a|];
  }

  /** No item's path is a prefix of another's, apart from the overview's. */
  lemma HrefsIndependent(i: nat, j: nat)
    requires 1 <= i < |NavItems| && 1 <= j < |NavItems| && i != j
    ensures !StartsWith(NavItems[j].href, NavItems[i].href)
  {
    var a, b := NavItems[i].href, NavItems[j].href;
    assert a[..11] == "/dashboard/" && b[..11] == "/dashboard/";
    if |a| <= |b| {
      assert a[11] != b[11] || a[12] != b[12];
    }
  }

  /** At most one item is highlighted for any path. */
  lemma AtMostOneActive(pathname: string, i: nat, j: nat)
    requires i < |NavItems| && j < |NavItems|
    requires IsActive(NavItems[i].href, pathname) && IsActive(NavItems[j].href, pathname)
    ensures i == j
  {
    if i != j {
      if i == 0 || j == 0 {
      } else if |NavItems[i].href| <= |NavItems[j].href| {
        PrefixesNest(pathname, NavItems[i].href, NavItems[j].href);
        HrefsIndependent(i, j);
      } else {
        PrefixesNest(pathname, NavItems[j].href, NavItems[i].href);
        HrefsIndependent(j, i);
      }
    }
  }

  /** A customer's page highlights Customers, and only the dashboard's own
      path highlights the overview. */
  lemma Highlights()
    ensures IsActive("/dashboard/customers", "/dashboard/customers/42")
    ensures !IsActive("/dashboard", "/dashboard/customers")
    ensures IsActive("/dashboard", "/dashboard")
  {
    assert "/dashboard/customers/42"[..20] == "/dashboard/customers";
  }
}
