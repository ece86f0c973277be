/**
 * The navigation sidebar of components/app-sidebar.tsx: which item is
 * highlighted for a path, the avatar initial, and logout.
 */
module Sidebar {
  import opened Wrappers
  import opened Text
  import opened UserContext

  datatype NavItem = NavItem(href: string, text: string)

  const DashboardHref: string := "/dashboard"

  const NavItems: seq<NavItem> := [
    NavItem("/dashboard", "Dashboard"),
    NavItem("/dashboard/roles", "Roles"),
    NavItem("/dashboard/candidates", "Candidates"),
    NavItem("/dashboard/shortlist", "Shortlist"),
    NavItem("/dashboard/scheduling", "Scheduling"),
    NavItem("/dashboard/analytics", "Analytics"),
    NavItem("/dashboard/settings", "Settings")
  ]

  /** The highlight test: an exact match, or a plain string prefix for every item but the dashboard. */
  predicate IsActive(pathname: string, href: string) {
    pathname == href || (href != DashboardHref && StartsWith(pathname, href))
  }

  lemma DashboardActiveOnlyWhenExact(pathname: string)
    ensures IsActive(pathname, DashboardHref) <==> pathname == DashboardHref
  {
  }

  lemma OtherItemActiveIffPrefix(pathname: string, href: string)
    requires href != DashboardHref
    ensures IsActive(pathname, href) <==> StartsWith(pathname, href)
  {
  }

  /** On the roles page Roles is highlighted and Dashboard is not; neither is any other item. */
  lemma RolesPageHighlight()
    ensures IsActive("/dashboard/roles", "/dashboard/roles")
    ensures !IsActive("/dashboard/roles", DashboardHref)
    ensures forall i :: 2 <= i < |NavItems| ==> !IsActive("/dashboard/roles", NavItems[i].href)
  {
    var p := "/dashboard/roles";
    assert p[11] == 'r';
    assert NavItems[2].href[11] == 'c' && NavItems[3].href[11] == 's' && NavItems[4].href[11] == 's';
    assert NavItems[5].href[11] == 'a' && NavItems[6].href[11] == 's';
  }

  /** The prefix test is not segment-aware: a path that merely extends "/dashboard/roles" highlights Roles. */
  lemma PrefixIsNotSegmentAware()
    ensures IsActive("/dashboard/rolesarchive", "/dashboard/roles")
  {
    assert "/dashboard/roles" <= "/dashboard/rolesarchive";
  }

  /** `user?.name?.trim()?.[0]?.toUpperCase() ?? "?"`. */
  function AvatarInitial(user: Option<User>): (r: string)
    ensures |r| == 1
    ensures user.None? || IsBlank(user.value.name) ==> r == "?"
    ensures user.Some? && !IsBlank(user.value.name) ==> r == [UpperChar(Trim(user.value.name)[0])]
  {
    if user.None? then "?"
    else
      var t := Trim(user.value.name);
      if t == [] then "?" else [UpperChar(t[0])]
  }

  /** `handleLogout`: the stored user is removed and the session cleared (navigation is left out). */
  method HandleLogout(session: Session)
    modifies session
    ensures session.user == None
    ensures session.storage == old(session.storage) - {UserKey}
  {
    session.storage := session.storage - {UserKey};
    session.SetUser(None);
  }
}
