/** Route resolution of the app shell (`AppRouting`): which screen a route
    string belongs to, whether the bottom bar is shown for it, the start
    destination and the session-id argument of the detail route. */
module AppRouting {
  import opened Common

  /** The screens, in declaration order. */
  datatype AppView = Login | Register | Home | Browse | CreateSession | Schedule | Profile | SessionDetails

  /** The Material icons the bottom bar can show. */
  datatype Icon = FilledHome | FilledSearch | FilledAdd | FilledCalendarMonth | FilledPerson

  /** The enum constant's `name`, which is also its route. */
  function Name(v: AppView): string {
    match v
    case Login => "LOGIN"
    case Register => "REGISTER"
    case Home => "HOME"
    case Browse => "BROWSE"
    case CreateSession => "CREATE_SESSION"
    case Schedule => "SCHEDULE"
    case Profile => "PROFILE"
    case SessionDetails => "SESSION_DETAILS"
  }

  /** The icon, absent for the screens outside the bottom bar. */
  function IconOf(v: AppView): Option<Icon> {
    match v
    case Home => Some(FilledHome)
    case Browse => Some(FilledSearch)
    case CreateSession => Some(FilledAdd)
    case Schedule => Some(FilledCalendarMonth)
    case Profile => Some(FilledPerson)
    case _ => None
  }

  /** `AppView.entries` */
  const Entries: seq<AppView> :=
    [Login, Register, Home, Browse, CreateSession, Schedule, Profile, SessionDetails]

  /** A bottom-bar entry; `caption` is the Kotlin `label`. */
  datatype BottomNavItem = BottomNavItem(view: AppView, caption: string)

  const BottomNavItems: seq<BottomNavItem> := [
    BottomNavItem(Home, "Home"),
    BottomNavItem(Browse, "Browse"),
    BottomNavItem(CreateSession, "Add"),
    BottomNavItem(Schedule, "Schedule"),
    BottomNavItem(Profile, "Profile")
  ]

  /** The route the navigation host starts on. */
  const StartDestination: string := Name(Login)

  /** `views.find { route.startsWith(it.name) }`: the first view, in the
      order given, whose name begins the route. */
  function FindByPrefix(views: seq<AppView>, route: string): (found: Option<AppView>)
    ensures found.Some? ==> found.value in views && Name(found.value) <= route
    ensures found.None? <==> forall i :: 0 <= i < |views| ==> !(Name(views[i]) <= route)
  {
    if views == [] then None
    else if Name(views[0]) <= route then Some(views[0])
    else FindByPrefix(views[1..], route)
  }

  /** The view found is the first match: the search never looks past a view
      whose name begins the route. */
  lemma {:induction false} FindByPrefixFirst(views: seq<AppView>, route: string, i: int)
    requires 0 <= i < |views| && Name(views[i]) <= route
    ensures FindByPrefix(views, route).Some?
    ensures FindByPrefix(views, route) == FindByPrefix(views[..i + 1], route)
  {
    var head := views[..i + 1];
    assert head[0] == views[0];
    if !(Name(views[0]) <= route) {
      var tail := views[1..];
      assert tail[i - 1] == views[i];
      FindByPrefixFirst(tail, route, i - 1);
      assert head[1..] == tail[..i];
    }
  }

  /** The screen a (possibly absent) route shows: the first entry whose name
      begins it, else the home screen. */
  function CurrentView(route: Option<string>): (v: AppView)
    ensures route.None? ==> v == Home
    ensures v != Home ==> route.Some? && Name(v) <= route.value
    ensures route.Some? && (forall w :: !(Name(w) <= route.value)) ==> v == Home
  {
    match route
    case None => Home
    case Some(r) => FindByPrefix(Entries, r).GetOr(Home)
  }

  /** `bottomNavItems.any { it.view.name == currentRoute }` */
  predicate IsBottomRoute(route: Option<string>): (shown: bool)
    ensures shown ==> route.Some? && route != Some(Name(Login)) && route != Some(Name(Register))
    ensures shown ==> !(Name(SessionDetails) <= route.value)
  {
    exists i :: 0 <= i < |BottomNavItems| && Some(Name(BottomNavItems[i].view)) == route
  }

  /** `arguments?.getString("sessionId") ?: ""` */
  function SessionIdArgument(arguments: Option<map<string, string>>): (id: string)
    ensures arguments.Some? && "sessionId" in arguments.value ==> id == arguments.value["sessionId"]
    ensures arguments.None? || "sessionId" !in arguments.value ==> id == ""
  {
    match arguments
    case Some(args) => if "sessionId" in args then args["sessionId"] else ""
    case None => ""
  }

  /** The route the detail screen is opened with. */
  function SessionDetailsRoute(sessionId: string): string {
    Name(SessionDetails) + "/" + sessionId
  }

  /** Every screen is listed once in `entries`. */
  lemma EntriesListEveryView(v: AppView)
    ensures v in Entries
    ensures forall i, j :: 0 <= i < j < |Entries| ==> Entries[i] != Entries[j]
  {
  }

  /** No screen's name begins another screen's name. */
  lemma NamesPrefixFree(a: AppView, b: AppView)
    requires a != b
    ensures !(Name(a) <= Name(b))
  {
    assert Name(a)[0] != Name(b)[0] || Name(a)[1] != Name(b)[1] || |Name(b)| < |Name(a)|;
  }

  /** Of two prefixes of one string, the shorter begins the longer. */
  lemma PrefixesNest(p: string, q: string, s: string)
    requires p <= s && q <= s && |p| <= |q|
    ensures p <= q
  {
    assert p == s[..|p|] && q == s[..|q|];
    assert q[..|p|] == s[..|p|];
  }

  /** A route begun by a screen's name shows that screen, whatever the
      declaration order: at most one name can begin a route. */
  lemma CurrentViewByPrefix(route: string, v: AppView)
    requires Name(v) <= route
    ensures CurrentView(Some(route)) == v
  {
    EntriesListEveryView(v);
    var found := FindByPrefix(Entries, route);
    assert found.Some?;
    var w := found.value;
    if w != v {
      if |Name(w)| <= |Name(v)| {
        PrefixesNest(Name(w), Name(v), route);
        NamesPrefixFree(w, v);
      } else {
        PrefixesNest(Name(v), Name(w), route);
        NamesPrefixFree(v, w);
      }
    }
  }

  /** A missing route, or one that no name begins, shows the home screen. */
  lemma CurrentViewDefault(route: Option<string>)
    requires route.Some? ==> forall v :: !(Name(v) <= route.value)
    ensures CurrentView(route) == Home
  {
  }

  /** The detail route, whatever the id, shows the detail screen. */
  lemma SessionDetailsRouteResolves(sessionId: string)
    ensures CurrentView(Some(SessionDetailsRoute(sessionId))) == SessionDetails
  {
    assert Name(SessionDetails) <= SessionDetailsRoute(sessionId);
    CurrentViewByPrefix(SessionDetailsRoute(sessionId), SessionDetails);
  }

  /** The bottom bar is shown exactly on the five top-level routes. */
  lemma BottomRouteExactly(route: string)
    ensures IsBottomRoute(Some(route)) <==>
            route in {"HOME", "BROWSE", "CREATE_SESSION", "SCHEDULE", "PROFILE"}
  {
    if route in {"HOME", "BROWSE", "CREATE_SESSION", "SCHEDULE", "PROFILE"} {
      var i := if route == "HOME" then 0 else if route == "BROWSE" then 1
               else if route == "CREATE_SESSION" then 2 else if route == "SCHEDULE" then 3 else 4;
      assert Some(Name(BottomNavItems[i].view)) == Some(route);
    }
  }

  /** It is hidden on the login, registration and detail screens, and when
      there is no route. */
  lemma BottomBarHidden(sessionId: string)
    ensures !IsBottomRoute(None)
    ensures !IsBottomRoute(Some(Name(Login))) && !IsBottomRoute(Some(Name(Register)))
    ensures !IsBottomRoute(Some(SessionDetailsRoute(sessionId)))
  {
    BottomRouteExactly(Name(Login));
    BottomRouteExactly(Name(Register));
    var route := SessionDetailsRoute(sessionId);
    BottomRouteExactly(route);
    assert route[..15] == "SESSION_DETAILS";
  }

  /** Every bottom item has an icon, so the bar's force-unwrap of `icon`
      cannot fail. */
  lemma BottomItemsHaveIcons()
    ensures forall i :: 0 <= i < |BottomNavItems| ==> IconOf(BottomNavItems[i].view).Some?
  {
  }

  /** The app opens on the login screen, and its route resolves to it. */
  lemma StartsOnLogin()
    ensures StartDestination == "LOGIN"
    ensures CurrentView(Some(StartDestination)) == Login
  {
    CurrentViewByPrefix(StartDestination, Login);
  }
}
