// The signed-in shell: a sidebar of the pages the user's role may open, a
// four-slot mobile bar, and a redirect to the login page when nobody is
// signed in.

module MainLayout {
  import opened Common
  import AuthService

  datatype NavItem = NavItem(name: string, href: string, allowedRoles: seq<string>)

  /** The two role lists the navigation uses. */
  const Everyone: seq<string> := ["user", "admin"]
  const AdminOnly: seq<string> := ["admin"]

  const Navigation: seq<NavItem> := [
    NavItem("Dashboard", "/dashboard", Everyone),
    NavItem("Satellites", "/satellites", Everyone),
    NavItem("Workflows", "/workflows", AdminOnly),
    NavItem("Users", "/admin/users", AdminOnly),
    NavItem("Settings", "/settings", Everyone)
  ]

  const MobileSlots: nat := 4

  predicate Allowed(item: NavItem, role: string) {
    role in item.allowedRoles
  }

  /** The sidebar's items of `nav` for `role`, in declaration order. */
  function SidebarItems(nav: seq<NavItem>, role: string): (r: seq<NavItem>)
    ensures forall item :: item in r <==> item in nav && Allowed(item, role)
    ensures IsSubsequence(r, nav)
    ensures |r| == CountWhere(nav, (item: NavItem) => Allowed(item, role))
  {
    FilterIsSubsequence(nav, (item: NavItem) => Allowed(item, role));
    Filter(nav, (item: NavItem) => Allowed(item, role))
  }

  /** The mobile bar: the first four permitted items. */
  function MobileItems(nav: seq<NavItem>, role: string): (r: seq<NavItem>)
    ensures |r| <= MobileSlots
    ensures |r| <= |SidebarItems(nav, role)| && r == SidebarItems(nav, role)[..|r|]
    ensures |r| == if |SidebarItems(nav, role)| < MobileSlots then |SidebarItems(nav, role)| else MobileSlots
  {
    Take(SidebarItems(nav, role), MobileSlots)
  }

  /** `isActive(path)` */
  predicate IsActive(pathname: string, href: string) {
    pathname == href
  }

  /** The navigation names as a role sees them. */
  function Names(items: seq<NavItem>): (r: seq<string>)
    ensures |r| == |items|
    ensures forall i :: 0 <= i < |r| ==> r[i] == items[i].name
  {
    Map(items, (item: NavItem) => item.name)
  }

  /** One step of `filter`: the head survives exactly when it passes. */
  lemma FilterStep(x: NavItem, rest: seq<NavItem>, role: string)
    ensures SidebarItems([x] + rest, role)
      == (if Allowed(x, role) then [x] else []) + SidebarItems(rest, role)
  {
    assert ([x] + rest)[1..] == rest;
  }

  /** A permitted head stays in front of what the rest leaves. */
  lemma PermittedKept(x: NavItem, rest: seq<NavItem>, kept: seq<NavItem>, role: string)
    requires Allowed(x, role) && SidebarItems(rest, role) == kept
    ensures SidebarItems([x] + rest, role) == [x] + kept
  {
    FilterStep(x, rest, role);
  }

  /** Two refused items followed by a permitted one leave just that one. */
  lemma {:induction false} RefusedPairDropped(c: NavItem, d: NavItem, e: NavItem, role: string)
    requires !Allowed(c, role) && !Allowed(d, role) && Allowed(e, role)
    ensures SidebarItems([c, d, e], role) == [e]
  {
    assert SidebarItems([e], role) == [e] by {
      FilterStep(e, [], role);
      assert [e] == [e] + [];
    }
    assert SidebarItems([d, e], role) == [e] by {
      FilterStep(d, [e], role);
      assert [d, e] == [d] + [e];
    }
    assert SidebarItems([c, d, e], role) == [e] by {
      FilterStep(c, [d, e], role);
      assert [c, d, e] == [c] + [d, e];
    }
  }

  /** Five items of which the third and fourth are refused leave the other three. */
  lemma {:induction false} FilterFive(a: NavItem, b: NavItem, c: NavItem, d: NavItem, e: NavItem, role: string)
    requires Allowed(a, role) && Allowed(b, role) && Allowed(e, role)
    requires !Allowed(c, role) && !Allowed(d, role)
    ensures SidebarItems([a, b, c, d, e], role) == [a, b, e]
  {
    RefusedPairDropped(c, d, e, role);
    PermittedKept(b, [c, d, e], [e], role);
    ConsFour(b, c, d, e);
    PermittedKept(a, [b, c, d, e], [b, e], role);
    ConsFive(a, b, c, d, e);
  }

  lemma ConsFour<T>(b: T, c: T, d: T, e: T)
    ensures [b] + [c, d, e] == [b, c, d, e]
  {
  }

  lemma ConsFive<T>(a: T, b: T, c: T, d: T, e: T)
    ensures [a] + [b, c, d, e] == [a, b, c, d, e]
  {
  }

  /** A plain user sees Dashboard, Satellites and Settings, in that order. */
  lemma UserSidebar()
    ensures SidebarItems(Navigation, "user") == [Navigation[0], Navigation[1], Navigation[4]]
  {
    assert "user" !in AdminOnly by { assert AdminOnly[0][0] != "user"[0]; }
    FilterFive(Navigation[0], Navigation[1], Navigation[2], Navigation[3], Navigation[4], "user");
  }

  /** An admin sees all five pages, and all but Settings on the mobile bar. */
  lemma AdminSidebar()
    ensures SidebarItems(Navigation, "admin") == Navigation
    ensures MobileItems(Navigation, "admin") == Navigation[..4]
  {
    FilterKeepsAll(Navigation, (item: NavItem) => Allowed(item, "admin"));
  }

  /** What the layout does for the user it holds. */
  datatype View = RedirectToLogin | Shell(sidebar: seq<NavItem>, mobile: seq<NavItem>)

  class Layout {
    var user: Option<AuthService.User>

    /** The layout starts from `getCurrentUser()`. */
    constructor(auth: AuthService.AuthStore)
      ensures user == auth.CurrentUser()
    {
      user := auth.CurrentUser();
    }

    /** The `storage` event: re-read the stored user. */
    method OnStorageChange(auth: AuthService.AuthStore)
      modifies this
      ensures user == auth.CurrentUser()
    {
      user := auth.CurrentUser();
    }

    /** The rendered view: nothing and a redirect when signed out. */
    function Render(): (v: View)
      reads this
      ensures user.None? <==> v == RedirectToLogin
      ensures user.Some? ==> v == Shell(SidebarItems(Navigation, user.value.role), MobileItems(Navigation, user.value.role))
    {
      if user.None? then RedirectToLogin
      else Shell(SidebarItems(Navigation, user.value.role), MobileItems(Navigation, user.value.role))
    }

    /** `handleLogout`: clear the store, then go to the login page. */
    method HandleLogout(auth: AuthService.AuthStore) returns (navigateTo: string)
      modifies auth
      ensures !auth.IsAuthenticated() && navigateTo == "/login"
    {
      auth.Logout();
      navigateTo := "/login";
    }
  }
}
