/**
 * The dashboard frame (src/components/layout/DashboardLayout.tsx): the navigation table,
 * which item is active for the current path, and the header title.
 */
module DashboardLayout {
  import opened Common

  datatype NavItem = NavItem(name: string, href: string)

  const Navigation: seq<NavItem> := [
    NavItem("Dashboard", "/dashboard"),
    NavItem("Upload Files", "/dashboard/upload"),
    NavItem("My Files", "/dashboard/files"),
    NavItem("Search", "/dashboard/search")
  ]

  /** isActiveRoute: "/dashboard" only on an exact match, every other link on a prefix match. */
  predicate IsActiveRoute(pathname: string, href: string)
  {
    if href == "/dashboard" then pathname == "/dashboard" else StartsWith(pathname, href)
  }

  /** The index `find` stops at: the first active item of `items`, if any. */
  function FirstActive(pathname: string, items: seq<NavItem>): (k: Option<nat>)
    ensures k.Some? ==> k.value < |items| && IsActiveRoute(pathname, items[k.value].href)
    ensures k.Some? ==> forall j :: 0 <= j < k.value ==> !IsActiveRoute(pathname, items[j].href)
    ensures k.None? ==> forall j :: 0 <= j < |items| ==> !IsActiveRoute(pathname, items[j].href)
  {
    if items == [] then None
    else if IsActiveRoute(pathname, items[0].href) then Some(0)
    else match FirstActive(pathname, items[1..])
      case None => None
      case Some(k) => Some(k + 1)
  }

  /** `navigation.find(item => isActiveRoute(item.href))?.name || "Dashboard"` */
  function HeaderTitle(pathname: string): string
  {
    match FirstActive(pathname, Navigation)
    case None => "Dashboard"
    case Some(k) => if Navigation[k].name == "" then "Dashboard" else Navigation[k].name
  }

  /** Two prefixes of one string agree wherever both are defined. */
  lemma PrefixesAgree(s: string, a: string, b: string, k: nat)
    requires StartsWith(s, a) && StartsWith(s, b) && k < |a| && k < |b|
    ensures a[k] == b[k]
  {
    assert s[..|a|][k] == s[k] == s[..|b|][k];
  }

  /** With this table, no path makes two items active. */
  lemma AtMostOneActive(pathname: string)
    ensures forall i, j :: 0 <= i < j < |Navigation| ==>
              !(IsActiveRoute(pathname, Navigation[i].href) && IsActiveRoute(pathname, Navigation[j].href))
  {
    forall i, j | 0 <= i < j < |Navigation|
      ensures !(IsActiveRoute(pathname, Navigation[i].href) && IsActiveRoute(pathname, Navigation[j].href))
    {
      if i != 0 && IsActiveRoute(pathname, Navigation[i].href) && IsActiveRoute(pathname, Navigation[j].href) {
        PrefixesAgree(pathname, Navigation[i].href, Navigation[j].href, 11);
      }
    }
  }

  /** The title is the name of the item that is active, and "Dashboard" when none is. */
  lemma HeaderTitleSpec(pathname: string)
    ensures forall i :: 0 <= i < |Navigation| && IsActiveRoute(pathname, Navigation[i].href) ==>
              HeaderTitle(pathname) == Navigation[i].name
    ensures (forall i :: 0 <= i < |Navigation| ==> !IsActiveRoute(pathname, Navigation[i].href)) ==>
              HeaderTitle(pathname) == "Dashboard"
  {
    AtMostOneActive(pathname);
  }

  lemma HeaderTitleExamples()
    ensures HeaderTitle("/dashboard") == "Dashboard"
    ensures HeaderTitle("/dashboard/files/123") == "My Files"
    ensures HeaderTitle("/dashboard/uploads") == "Upload Files"
    ensures HeaderTitle("/dashboard/") == "Dashboard"
  {
    assert IsActiveRoute("/dashboard", "/dashboard");
    HeaderTitleSpec("/dashboard");
    assert StartsWith("/dashboard/files/123", "/dashboard/files");
    HeaderTitleSpec("/dashboard/files/123");
    assert StartsWith("/dashboard/uploads", "/dashboard/upload");
    HeaderTitleSpec("/dashboard/uploads");
    HeaderTitleSpec("/dashboard/");
  }
}
