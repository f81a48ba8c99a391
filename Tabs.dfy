/** The custom tab bar of the signed-in app: the tabs it shows, which of
    them is active, their colours, and the booking button in the middle. */
module Tabs {
  import opened Wrappers

  /** A navigator route: its unique key and its screen name. */
  datatype Route = Route(key: string, name: string)

  /** The hidden screen, reached through the middle button only. */
  const BookingName := "Booking"

  /** The routes with a tab: every route except the booking screen, in
      their order. */
  function VisibleRoutes(routes: seq<Route>): (v: seq<Route>)
    ensures |v| <= |routes|
  {
    if routes == [] then []
    else if routes[0].name != BookingName then [routes[0]] + VisibleRoutes(routes[1..])
    else VisibleRoutes(routes[1..])
  }

  /** The visible routes are exactly the routes not named "Booking". */
  lemma {:induction false} VisibleMembers(routes: seq<Route>, r: Route)
    ensures r in VisibleRoutes(routes) <==> r in routes && r.name != BookingName
  {
    if routes != [] {
      VisibleMembers(routes[1..], r);
      assert r in routes <==> r == routes[0] || r in routes[1..];
    }
  }

  /** Filtering a concatenation filters each part, so the routes keep
      their order. */
  lemma {:induction false} VisibleConcat(a: seq<Route>, b: seq<Route>)
    ensures VisibleRoutes(a + b) == VisibleRoutes(a) + VisibleRoutes(b)
  {
    if a == [] {
      assert a + b == b;
    } else {
      assert (a + b)[0] == a[0] && (a + b)[1..] == a[1..] + b;
      VisibleConcat(a[1..], b);
    }
  }

  /** `findIndex` by key: the place of the first route with that key. */
  function IndexOfKey(routes: seq<Route>, key: string): (i: Option<nat>)
    ensures i.Some? ==> i.value < |routes| && routes[i.value].key == key
    ensures i.Some? ==> forall j :: 0 <= j < i.value ==> routes[j].key != key
    ensures i.None? ==> forall j :: 0 <= j < |routes| ==> routes[j].key != key
  {
    if routes == [] then None
    else if routes[0].key == key then Some(0)
    else
      var rest := IndexOfKey(routes[1..], key);
      if rest.None? then None else Some(rest.value + 1)
  }

  /** A tab is active when its route's place in the full list is the
      navigator's current index. */
  predicate IsActive(routes: seq<Route>, index: nat, r: Route) {
    IndexOfKey(routes, r.key) == Some(index)
  }

  /** Keys are unique, as the navigator makes them. */
  predicate UniqueKeys(routes: seq<Route>) {
    forall i, j :: 0 <= i < j < |routes| ==> routes[i].key != routes[j].key
  }

  /** With unique keys, the place of a route's key is the route's place. */
  lemma IndexOfUniqueKey(routes: seq<Route>, k: nat)
    requires UniqueKeys(routes) && k < |routes|
    ensures IndexOfKey(routes, routes[k].key) == Some(k)
  {
    var i := IndexOfKey(routes, routes[k].key);
    assert i.Some? && i.value <= k && routes[i.value].key == routes[k].key;
  }

  /** With unique keys, the tab of the current route is the active one and
      only it; while the booking screen is current no tab is active. */
  lemma ActiveIff(routes: seq<Route>, index: nat, r: Route)
    requires UniqueKeys(routes) && index < |routes| && r in VisibleRoutes(routes)
    ensures IsActive(routes, index, r) <==> routes[index] == r
    ensures routes[index].name == BookingName ==> !IsActive(routes, index, r)
  {
    VisibleMembers(routes, r);
    assert r in routes && r.name != BookingName;
    var k :| 0 <= k < |routes| && routes[k] == r;
    IndexOfUniqueKey(routes, k);
    IndexOfUniqueKey(routes, index);
  }

  datatype Theme = Light | Dark

  /** The colour of a tab's icon and label. */
  function TabColour(active: bool, theme: Theme): (c: string)
    ensures active ==> c == "#648CBA"
    ensures !active ==> c == (if theme == Dark then "#EDF1F2" else "#415D7C")
  {
    if active then "#648CBA" else if theme == Dark then "#EDF1F2" else "#415D7C"
  }

  /** An active tab never looks like an inactive one. */
  lemma ActiveStandsOut(t1: Theme, t2: Theme)
    ensures TabColour(true, t1) != TabColour(false, t2)
  {
    assert "#648CBA"[1] != "#EDF1F2"[1] && "#648CBA"[1] != "#415D7C"[1];
  }

  datatype Icon = HomeIcon | WalletIcon | BellsIcon | PersonIcon

  /** A tab's label and icon. */
  datatype TabMeta = TabMeta(caption: string, icon: Icon)

  /** The tab metadata by screen name. */
  function Meta(name: string): Option<TabMeta> {
    if name == "Home" then Some(TabMeta("Home", HomeIcon))
    else if name == "Payment" then Some(TabMeta("Payment", WalletIcon))
    else if name == "Alerts" then Some(TabMeta("Alerts", BellsIcon))
    else if name == "Profile" then Some(TabMeta("Profile", PersonIcon))
    else None
  }

  /** A drawn tab: the route it navigates to, its label, icon and colour. */
  datatype Tab = Tab(route: string, caption: string, icon: Icon, colour: string)

  /** The tabs drawn for the visible routes `vs`; a route without metadata
      draws nothing. */
  function DrawTabs(routes: seq<Route>, vs: seq<Route>, index: nat, theme: Theme): (tabs: seq<Tab>)
    ensures |tabs| <= |vs|
    ensures forall t :: t in tabs ==> exists r :: r in vs && Meta(r.name).Some? && t.route == r.name
                                                 && t.caption == Meta(r.name).value.caption
                                                 && t.icon == Meta(r.name).value.icon
                                                 && t.colour == TabColour(IsActive(routes, index, r), theme)
  {
    if vs == [] then []
    else
      var r := vs[0];
      var rest := DrawTabs(routes, vs[1..], index, theme);
      match Meta(r.name)
      case None => rest
      case Some(m) => [Tab(r.name, m.caption, m.icon, TabColour(IsActive(routes, index, r), theme))] + rest
  }

  /** The bar's tabs. */
  function TabBar(routes: seq<Route>, index: nat, theme: Theme): seq<Tab> {
    DrawTabs(routes, VisibleRoutes(routes), index, theme)
  }

  /** The screens the tab navigator declares, in order. */
  function Declared(): seq<Route> {
    [Route("home", "Home"), Route("payment", "Payment"), Route("booking", "Booking"),
     Route("alerts", "Alerts"), Route("profile", "Profile")]
  }

  /** A route with metadata draws one tab in front of the others. */
  lemma DrawOne(routes: seq<Route>, vs: seq<Route>, index: nat, theme: Theme)
    requires vs != [] && Meta(vs[0].name).Some?
    ensures var tabs := DrawTabs(routes, vs, index, theme);
            tabs != [] && tabs[0].caption == Meta(vs[0].name).value.caption
            && tabs[0].icon == Meta(vs[0].name).value.icon
            && tabs[0].colour == TabColour(IsActive(routes, index, vs[0]), theme)
            && tabs[1..] == DrawTabs(routes, vs[1..], index, theme)
  {
  }

  /** The declared routes other than the booking screen. */
  lemma DeclaredVisible()
    ensures VisibleRoutes(Declared()) ==
              [Route("home", "Home"), Route("payment", "Payment"), Route("alerts", "Alerts"), Route("profile", "Profile")]
  {
    var home, payment, booking := Route("home", "Home"), Route("payment", "Payment"), Route("booking", "Booking");
    var alerts, profile := Route("alerts", "Alerts"), Route("profile", "Profile");
    assert "Payment"[0] != BookingName[0] && "Profile"[0] != BookingName[0];
    assert VisibleRoutes([profile]) == [profile];
    assert VisibleRoutes([alerts, profile]) == [alerts, profile];
    assert VisibleRoutes([booking, alerts, profile]) == [alerts, profile];
    assert VisibleRoutes([payment, booking, alerts, profile]) == [payment, alerts, profile];
    var all := [home, payment, booking, alerts, profile];
    assert all[1..] == [payment, booking, alerts, profile];
    assert VisibleRoutes(all) == [home, payment, alerts, profile];
    assert Declared() == all;
  }

  /** The four tab screens have their metadata. */
  lemma TabScreensMeta()
    ensures Meta("Home") == Some(TabMeta("Home", HomeIcon))
    ensures Meta("Payment") == Some(TabMeta("Payment", WalletIcon))
    ensures Meta("Alerts") == Some(TabMeta("Alerts", BellsIcon))
    ensures Meta("Profile") == Some(TabMeta("Profile", PersonIcon))
  {
    assert "Payment" != "Home";
    assert "Alerts" != "Home" && "Alerts" != "Payment";
    assert "Profile" != "Home" && "Profile" != "Payment" && "Profile" != "Alerts";
  }

  /** With the declared screens the bar shows Home, Payment, Alerts and
      Profile, in that order, each with its icon; a tab has the active colour
      exactly when the navigator's index is its screen's place among the five
      declared screens. */
  lemma DeclaredTabs(index: nat, theme: Theme)
    ensures var tabs := TabBar(Declared(), index, theme);
            && |tabs| == 4 && tabs[0].caption == "Home" && tabs[1].caption == "Payment"
            && tabs[2].caption == "Alerts" && tabs[3].caption == "Profile"
            && tabs[0].icon == HomeIcon && tabs[1].icon == WalletIcon
            && tabs[2].icon == BellsIcon && tabs[3].icon == PersonIcon
            && tabs[0].colour == TabColour(index == 0, theme) && tabs[1].colour == TabColour(index == 1, theme)
            && tabs[2].colour == TabColour(index == 3, theme) && tabs[3].colour == TabColour(index == 4, theme)
  {
    DeclaredPlaces();
    var d := Declared();
    DeclaredVisible();
    TabScreensMeta();
    var v := VisibleRoutes(d);
    DrawOne(d, v, index, theme);
    DrawOne(d, v[1..], index, theme);
    DrawOne(d, v[2..], index, theme);
    DrawOne(d, v[3..], index, theme);
    assert v[3..][1..] == [];
  }

  /** The places of the tab screens' keys among the declared screens. */
  lemma DeclaredPlaces()
    ensures IndexOfKey(Declared(), "home") == Some(0)
    ensures IndexOfKey(Declared(), "payment") == Some(1)
    ensures IndexOfKey(Declared(), "alerts") == Some(3)
    ensures IndexOfKey(Declared(), "profile") == Some(4)
  {
    var d := Declared();
    assert UniqueKeys(d) by {
      assert d[0].key[0] != d[1].key[0] && d[0].key[0] != d[2].key[0] && d[0].key[0] != d[3].key[0];
      assert d[0].key[0] != d[4].key[0] && d[1].key[0] != d[2].key[0] && d[1].key[0] != d[3].key[0];
      assert d[1].key[1] != d[4].key[1] && d[2].key[0] != d[3].key[0] && d[2].key[0] != d[4].key[0];
      assert d[3].key[0] != d[4].key[0];
    }
    IndexOfUniqueKey(d, 0);
    IndexOfUniqueKey(d, 1);
    IndexOfUniqueKey(d, 3);
    IndexOfUniqueKey(d, 4);
  }

  /** The middle button's target. */
  function CentreTarget(): (s: string)
    ensures s == BookingName
  {
    "Booking"
  }

  /** The middle button opens the one declared screen without a tab: it is
      declared, and of the declared screens exactly it is hidden. */
  lemma CentreTargetHidden()
    ensures Route("booking", CentreTarget()) in Declared()
    ensures forall r :: r in Declared() ==> (r in VisibleRoutes(Declared()) <==> r.name != CentreTarget())
  {
    assert Declared()[2] == Route("booking", CentreTarget());
    forall r | r in Declared()
      ensures r in VisibleRoutes(Declared()) <==> r.name != CentreTarget()
    {
      VisibleMembers(Declared(), r);
    }
  }
}
