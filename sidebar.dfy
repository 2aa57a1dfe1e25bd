/** layout/Sidebar.tsx: the dashboard's navigation links and which one is highlighted. */
module Sidebar {
  import opened Strings

  datatype SidebarItem = SidebarItem(title: string, href: string)

  const DashboardHref := "/dashboard"

  /** `sidebarItems`, in order (the icons are left out). */
  const Items: seq<SidebarItem> := [
    SidebarItem("Dashboard", "/dashboard"),
    SidebarItem("Users", "/dashboard/users"),
    SidebarItem("Subscriptions & Payments", "/dashboard/subscriptions"),
    SidebarItem("Training Content", "/dashboard/training"),
    SidebarItem("Support & Engagement", "/dashboard/support"),
    SidebarItem("Settings", "/dashboard/settings")
  ]

  /** An item is highlighted on its own path, and every item but the overview also on the paths below it. */
  predicate IsActive(pathname: string, item: SidebarItem)
    ensures IsActive(pathname, item) ==> StartsWith(pathname, item.href)
    ensures pathname == item.href ==> IsActive(pathname, item)
  {
    assert StartsWith(item.href, item.href) by { assert item.href[0..|item.href|] == item.href; }
    pathname == item.href || (item.href != DashboardHref && StartsWith(pathname, item.href))
  }

  /** The overview link is highlighted only on /dashboard itself, never on a sub-page. */
  lemma DashboardActiveOnlyOnItself(pathname: string)
    ensures IsActive(pathname, Items[0]) <==> pathname == DashboardHref
  {
  }

  /** The links' paths are distinct: no two items share a key. */
  lemma HrefsDistinct()
    ensures forall i, j :: 0 <= i < j < |Items| ==> Items[i].href != Items[j].href
  {
  }

  /** Apart from the overview, no link's path is a prefix of another's. */
  lemma {:induction false} NoNestedHrefs()
    ensures forall i, j :: 1 <= i < |Items| && 0 <= j < |Items| && i != j ==> !StartsWith(Items[j].href, Items[i].href)
  {
    assert Items[1].href[11..14] == "use";
    assert Items[2].href[11..14] == "sub";
    assert Items[3].href[11..14] == "tra";
    assert Items[4].href[11..14] == "sup";
    assert Items[5].href[11..14] == "set";
    forall i, j | 1 <= i < |Items| && 0 <= j < |Items| && i != j
      ensures !StartsWith(Items[j].href, Items[i].href)
    {
      var a, b := Items[i].href, Items[j].href;
      if |a| <= |b| {
        assert b[..|a|] != a by {
          assert |a| >= 14 && a[11..14] != b[11..14];
          assert b[..|a|][11..14] == b[11..14];
        }
      }
    }
  }

  /** Two prefixes of the same path: the shorter is a prefix of the longer. */
  lemma CommonPathPrefixes(pathname: string, a: string, b: string)
    requires StartsWith(pathname, a) && StartsWith(pathname, b) && |a| <= |b|
    ensures StartsWith(b, a)
  {
    assert b[..|a|] == pathname[..|a|];
  }

  /** On any path, at most one link is highlighted. */
  lemma AtMostOneActive(pathname: string, i: int, j: int)
    requires 0 <= i < j < |Items|
    ensures !(IsActive(pathname, Items[i]) && IsActive(pathname, Items[j]))
  {
    NoNestedHrefs();
    var a, b := Items[i].href, Items[j].href;
    if StartsWith(pathname, a) && StartsWith(pathname, b) {
      if |a| <= |b| {
        CommonPathPrefixes(pathname, a, b);
      } else {
        CommonPathPrefixes(pathname, b, a);
      }
    }
  }
}
