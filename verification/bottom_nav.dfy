/**
 * The bottom navigation bar (`app/components/BottomNavBar.tsx`): the four
 * tabs, which of them the current path activates, and the icon each one
 * shows.
 */
module BottomNav {

  datatype Tab = Tab(name: string, route: string, icon: string, iconFocused: string, title: string)

  /** `TABS`. */
  const Tabs: seq<Tab> := [
    Tab("home", "/main/home", "home-outline", "home", "Accueil"),
    Tab("discover", "/main/discover", "compass-outline", "compass", "Découvrir"),
    Tab("friends", "/main/friends", "people-outline", "people", "Amis"),
    Tab("profile", "/main/profile", "person-outline", "person", "Profil")
  ]

  const MainPrefix := "/main/"
  const ActiveColor := "#FFFFFF"
  const InactiveColor := "#8E8E93"

  /** `s.startsWith(p)`. */
  predicate StartsWith(s: string, p: string) {
    |p| <= |s| && s[..|p|] == p
  }

  /** `isTabActive`: the path is the tab's route or starts with it, which is the same as starting with it. */
  function IsTabActive(pathname: string, tabRoute: string): (r: bool)
    ensures r <==> StartsWith(pathname, tabRoute)
  {
    pathname == tabRoute || StartsWith(pathname, tabRoute)
  }

  /** The table has four tabs with distinct names and routes, each route under "/main/". */
  lemma TabsTable()
    ensures |Tabs| == 4
    ensures forall i, j :: 0 <= i < j < |Tabs| ==> Tabs[i].name != Tabs[j].name && Tabs[i].route != Tabs[j].route
    ensures forall i :: 0 <= i < |Tabs| ==> StartsWith(Tabs[i].route, MainPrefix)
  {
  }

  /** A tab's own route activates it. */
  lemma OwnRouteActive(tab: Tab)
    ensures IsTabActive(tab.route, tab.route)
  {
  }

  /** A longer path under a route activates its tab, and so does a mere text prefix. */
  lemma PrefixActivates()
    ensures IsTabActive("/main/home/photo", "/main/home")
    ensures IsTabActive("/main/homework", "/main/home")
    ensures !IsTabActive("/main", "/main/home")
  {
    assert "/main/homework"[..|"/main/home"|] == "/main/home";
    assert "/main/home/photo"[..|"/main/home"|] == "/main/home";
  }

  /** Two prefixes of one text: the shorter is a prefix of the longer. */
  lemma PrefixesNest(s: string, a: string, b: string)
    requires StartsWith(s, a) && StartsWith(s, b) && |a| <= |b|
    ensures StartsWith(b, a)
  {
    assert b[..|a|] == s[..|b|][..|a|];
  }

  /** No tab's route is a prefix of another's. */
  lemma RoutesUnnested()
    ensures forall i, j :: 0 <= i < |Tabs| && 0 <= j < |Tabs| && i != j ==> !StartsWith(Tabs[j].route, Tabs[i].route)
  {
    forall i, j | 0 <= i < |Tabs| && 0 <= j < |Tabs| && i != j
      ensures !StartsWith(Tabs[j].route, Tabs[i].route)
    {
      var a := Tabs[i].route;
      var b := Tabs[j].route;
      assert a[6] != b[6] || a[7] != b[7];
      if |a| <= |b| {
        assert b[..|a|][6] == b[6] && b[..|a|][7] == b[7];
      }
    }
  }

  /** Whatever the path, at most one tab is active. */
  lemma AtMostOneActive(pathname: string)
    ensures forall i, j :: 0 <= i < j < |Tabs| && IsTabActive(pathname, Tabs[i].route) ==> !IsTabActive(pathname, Tabs[j].route)
  {
    RoutesUnnested();
    forall i, j | 0 <= i < j < |Tabs| && IsTabActive(pathname, Tabs[i].route)
      ensures !IsTabActive(pathname, Tabs[j].route)
    {
      if IsTabActive(pathname, Tabs[j].route) {
        if |Tabs[i].route| <= |Tabs[j].route| {
          PrefixesNest(pathname, Tabs[i].route, Tabs[j].route);
        } else {
          PrefixesNest(pathname, Tabs[j].route, Tabs[i].route);
        }
      }
    }
  }

  /** The icon and colour a tab shows: the focused icon in white exactly when it is active. */
  function TabIcon(pathname: string, tab: Tab): (r: (string, string))
    ensures StartsWith(pathname, tab.route) ==> r == (tab.iconFocused, ActiveColor)
    ensures !StartsWith(pathname, tab.route) ==> r == (tab.icon, InactiveColor)
  {
    var isActive := IsTabActive(pathname, tab.route);
    (if isActive then tab.iconFocused else tab.icon, if isActive then ActiveColor else InactiveColor)
  }

  /** On a tab's own screen, that tab alone shows its focused icon. */
  lemma OwnScreenFocusesOneTab(k: nat)
    requires k < |Tabs|
    ensures TabIcon(Tabs[k].route, Tabs[k]).0 == Tabs[k].iconFocused
    ensures forall j :: 0 <= j < |Tabs| && j != k ==> TabIcon(Tabs[k].route, Tabs[j]).0 == Tabs[j].icon
  {
    AtMostOneActive(Tabs[k].route);
    OwnRouteActive(Tabs[k]);
  }
}
