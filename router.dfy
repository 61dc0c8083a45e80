/**
 * The route table with its meta flags, how a path resolves to its matched
 * records (`to.matched`, parent before child), and the navigation guard's
 * decision (`handleNavigation` inside `beforeEach`). Paths are sequences of
 * segments: "/workouts/42" is ["workouts", "42"].
 */
module Router {
  import opened Wrappers
  import opened UseAuth

  datatype RouteMeta = RouteMeta(requiresAuth: bool, requiresGuest: bool)

  datatype Segment = Literal(text: string) | Param(name: string)

  /** A route record: its own path pattern (relative to its parent), meta
      flags, nested routes, and where it redirects, if it does. */
  datatype Route = Route(
    pattern: seq<Segment>,
    meta: RouteMeta,
    children: seq<Route>,
    redirect: Option<seq<string>>)

  const Plain: RouteMeta := RouteMeta(false, false)
  const Protected: RouteMeta := RouteMeta(true, false)
  const GuestOnly: RouteMeta := RouteMeta(false, true)

  const WorkoutsTab: seq<string> := ["tabs", "workouts"]

  const TabsIndex: Route := Route([], Plain, [], Some(WorkoutsTab))
  const WorkoutsChild: Route := Route([Literal("workouts")], Plain, [], None)
  const ExercisesChild: Route := Route([Literal("exercises")], Plain, [], None)
  const AccountChild: Route := Route([Literal("account")], Plain, [], None)

  const RootRoute: Route := Route([], Plain, [], Some(WorkoutsTab))
  const LoginRoute: Route := Route([Literal("login")], GuestOnly, [], None)
  const SignupRoute: Route := Route([Literal("signup")], GuestOnly, [], None)
  const TabsRoute: Route := Route([Literal("tabs")], Protected, [TabsIndex, WorkoutsChild, ExercisesChild, AccountChild], None)
  const ExerciseDetailRoute: Route := Route([Literal("exercises"), Param("id")], Protected, [], None)
  const WorkoutDetailRoute: Route := Route([Literal("workouts"), Param("id")], Protected, [], None)

  /** The application's routes, in declaration order. */
  const Routes: seq<Route> := [RootRoute, LoginRoute, SignupRoute, TabsRoute, ExerciseDetailRoute, WorkoutDetailRoute]

  /** Lower-casing of one ASCII letter; every other character is kept. */
  function LowerChar(c: char): char {
    if 'A' <= c <= 'Z' then (c as int + 32) as char else c
  }

  /** Two segments are the same to the router, which by default ignores
      letter case. */
  predicate SameSegment(a: string, b: string) {
    |a| == |b| && forall i :: 0 <= i < |a| ==> LowerChar(a[i]) == LowerChar(b[i])
  }

  /** The pattern matches the start of the path; a literal matches its
      text in any letter case, a parameter any non-empty segment. */
  predicate PrefixMatches(pattern: seq<Segment>, path: seq<string>) {
    && |pattern| <= |path|
    && forall i :: 0 <= i < |pattern| ==>
         if pattern[i].Literal? then SameSegment(path[i], pattern[i].text) else path[i] != ""
  }

  /** The records matched by `path` under the first of `routes[from..]` that
      matches it, parent first. */
  function MatchFrom(routes: seq<Route>, from: nat, path: seq<string>): (m: Option<seq<Route>>)
    ensures m.Some? ==> |m.value| >= 1 && exists i :: from <= i < |routes| && m == MatchOne(routes[i], path)
    decreases routes, |routes| - from
  {
    if from >= |routes| then None
    else
      var first := MatchOne(routes[from], path);
      if first.Some? then first else MatchFrom(routes, from + 1, path)
  }

  /** The records matched by `path` under route `r`, `r` first. */
  function MatchOne(r: Route, path: seq<string>): (m: Option<seq<Route>>)
    ensures m.Some? ==> |m.value| >= 1 && m.value[0] == r
    ensures m.Some? && r.children == [] ==> m.value == [r]
    decreases r, 1
  {
    if !PrefixMatches(r.pattern, path) then None
    else
      var rest := path[|r.pattern|..];
      if r.children == [] then
        if rest == [] then Some([r]) else None
      else
        var chain := MatchFrom(r.children, 0, rest);
        if chain.Some? then Some([r] + chain.value) else None
  }

  /** The records a path matches in the route table. */
  function Match(path: seq<string>): Option<seq<Route>> {
    MatchFrom(Routes, 0, path)
  }

  /** `to.matched` for a navigation to `path`: a redirecting record is
      replaced by the records of its target. */
  function Resolve(path: seq<string>): Option<seq<Route>> {
    var m := Match(path);
    if m.Some? && m.value[|m.value| - 1].redirect.Some? then
      Match(m.value[|m.value| - 1].redirect.value)
    else m
  }

  /** `to.matched.some(record => record.meta.requiresAuth)` */
  predicate RequiresAuth(matched: seq<Route>) {
    exists i :: 0 <= i < |matched| && matched[i].meta.requiresAuth
  }

  /** `to.matched.some(record => record.meta.requiresGuest)` */
  predicate RequiresGuest(matched: seq<Route>) {
    exists i :: 0 <= i < |matched| && matched[i].meta.requiresGuest
  }

  /** What `next(...)` is called with. */
  datatype Decision = Proceed | RedirectTo(path: string)

  const LoginPath: string := "/login"
  const WorkoutsPath: string := "/tabs/workouts"

  /** `handleNavigation()`: to the login page exactly when a protected
      record is matched without a user; to the workouts tab exactly when a
      guest-only record is matched with a user; otherwise onwards. */
  function HandleNavigation(matched: seq<Route>, isAuthenticated: bool): (d: Decision)
    ensures d == RedirectTo(LoginPath)
        <==> (exists i :: 0 <= i < |matched| && matched[i].meta.requiresAuth) && !isAuthenticated
    ensures d == RedirectTo(WorkoutsPath)
        <==> (exists i :: 0 <= i < |matched| && matched[i].meta.requiresGuest) && isAuthenticated
    ensures d.RedirectTo? ==> d.path == LoginPath || d.path == WorkoutsPath
  {
    if RequiresAuth(matched) && !isAuthenticated then RedirectTo(LoginPath)
    else if RequiresGuest(matched) && isAuthenticated then RedirectTo(WorkoutsPath)
    else Proceed
  }

  /** The guard's three outcomes: a protected route without a user goes to
      the login page, a guest-only route with a user goes to the workouts
      tab (the first check wins when both flags are present), and anything
      else proceeds. A signed-out user is never sent to the workouts tab, a
      signed-in user never to the login page. */
  lemma HandleNavigationCases(matched: seq<Route>, isAuthenticated: bool)
    ensures HandleNavigation(matched, isAuthenticated) == Proceed
        <==> (!RequiresAuth(matched) || isAuthenticated) && (!RequiresGuest(matched) || !isAuthenticated)
    ensures !isAuthenticated ==> HandleNavigation(matched, isAuthenticated) != RedirectTo(WorkoutsPath)
    ensures isAuthenticated ==> HandleNavigation(matched, isAuthenticated) != RedirectTo(LoginPath)
  {
  }

  /** `beforeEach`: no decision until the session is initialised (the
      polling that waits for it is not modelled); then the decision for the
      session's user. */
  function BeforeEach(matched: seq<Route>, authInitialized: bool, currentUser: Option<AuthUser>): (d: Option<Decision>)
    ensures d.Some? <==> authInitialized
    ensures d.Some? ==> d.value == HandleNavigation(matched, currentUser.Some?)
  {
    if !authInitialized then None
    else Some(HandleNavigation(matched, IsAuthenticated(currentUser)))
  }

  // ---------------------------------------------------------------------------
  // Facts about the route table.

  /** A route that does not match is passed over. */
  lemma Skip(routes: seq<Route>, from: nat, path: seq<string>)
    requires from < |routes| && MatchOne(routes[from], path).None?
    ensures MatchFrom(routes, from, path) == MatchFrom(routes, from + 1, path)
  {
  }

  /** The first route that matches decides. */
  lemma Take(routes: seq<Route>, from: nat, path: seq<string>)
    requires from < |routes| && MatchOne(routes[from], path).Some?
    ensures MatchFrom(routes, from, path) == MatchOne(routes[from], path)
  {
  }

  /** A route whose pattern starts with another literal does not match. */
  lemma LiteralMismatch(r: Route, text: string, path: seq<string>)
    requires |r.pattern| >= 1 && r.pattern[0] == Literal(text)
    requires |path| > 0 && !SameSegment(path[0], text)
    ensures MatchOne(r, path).None?
  {
  }

  /** A route with an empty pattern and no children matches only the empty path. */
  lemma EmptyLeafMismatch(r: Route, path: seq<string>)
    requires r.pattern == [] && r.children == [] && path != []
    ensures MatchOne(r, path).None?
  {
    assert path[|r.pattern|..] == path;
  }

  /** A leaf whose pattern covers the whole path matches it alone. */
  lemma LeafMatch(r: Route, path: seq<string>)
    requires r.children == [] && |r.pattern| == |path| && PrefixMatches(r.pattern, path)
    ensures MatchOne(r, path) == Some([r])
  {
    assert path[|r.pattern|..] == [];
  }

  /** A parent whose pattern starts the path matches it when one of its
      children matches the rest. */
  lemma ParentMatch(r: Route, path: seq<string>, chain: seq<Route>)
    requires r.children != [] && PrefixMatches(r.pattern, path)
    requires MatchFrom(r.children, 0, path[|r.pattern|..]) == Some(chain)
    ensures MatchOne(r, path) == Some([r] + chain)
  {
  }

  /** The table's entries, by position. */
  lemma RoutesEntries()
    ensures |Routes| == 6
    ensures Routes[0] == RootRoute && Routes[1] == LoginRoute && Routes[2] == SignupRoute
    ensures Routes[3] == TabsRoute && Routes[4] == ExerciseDetailRoute && Routes[5] == WorkoutDetailRoute
  {
  }

  /** The root route passes over any non-empty path. */
  lemma PastRoot(path: seq<string>)
    requires |path| > 0
    ensures MatchFrom(Routes, 0, path) == MatchFrom(Routes, 1, path)
  {
    EmptyLeafMismatch(RootRoute, path);
    Skip(Routes, 0, path);
  }

  /** The login route passes over a path that does not name it. */
  lemma PastLogin(path: seq<string>)
    requires |path| > 0 && !SameSegment(path[0], "login")
    ensures MatchFrom(Routes, 1, path) == MatchFrom(Routes, 2, path)
  {
    RoutesEntries();
    LiteralMismatch(LoginRoute, "login", path);
    Skip(Routes, 1, path);
  }

  /** The sign-up route passes over a path that does not name it. */
  lemma PastSignup(path: seq<string>)
    requires |path| > 0 && !SameSegment(path[0], "signup")
    ensures MatchFrom(Routes, 2, path) == MatchFrom(Routes, 3, path)
  {
    RoutesEntries();
    LiteralMismatch(SignupRoute, "signup", path);
    Skip(Routes, 2, path);
  }

  /** The root, login and sign-up routes pass over a non-empty path that
      names neither page. */
  lemma PastGuestPages(path: seq<string>)
    requires |path| > 0 && !SameSegment(path[0], "login") && !SameSegment(path[0], "signup")
    ensures Match(path) == MatchFrom(Routes, 3, path)
  {
    PastRoot(path);
    PastLogin(path);
    PastSignup(path);
  }

  /** No route after the tabs parent matches a path starting with "tabs". */
  lemma AfterTabs(path: seq<string>)
    requires |path| > 0 && SameSegment(path[0], "tabs")
    ensures MatchFrom(Routes, 4, path).None?
  {
    PastExerciseDetail(path);
    PastWorkoutDetail(path);
  }

  /** The exercise detail route passes over a path that does not start
      with "exercises". */
  lemma PastExerciseDetail(path: seq<string>)
    requires |path| > 0 && !SameSegment(path[0], "exercises")
    ensures MatchFrom(Routes, 4, path) == MatchFrom(Routes, 5, path)
  {
    RoutesEntries();
    LiteralMismatch(ExerciseDetailRoute, "exercises", path);
    Skip(Routes, 4, path);
  }

  /** Nothing from the workout detail route on matches a path that does
      not start with "workouts". */
  lemma PastWorkoutDetail(path: seq<string>)
    requires |path| > 0 && !SameSegment(path[0], "workouts")
    ensures MatchFrom(Routes, 5, path).None?
  {
    RoutesEntries();
    LiteralMismatch(WorkoutDetailRoute, "workouts", path);
    Skip(Routes, 5, path);
  }

  /** Paths starting with "tabs" can only match under the tabs parent. */
  lemma TabsMatched(path: seq<string>)
    requires |path| > 0 && SameSegment(path[0], "tabs")
    ensures Match(path) == MatchOne(TabsRoute, path)
  {
    assert |path[0]| == 4;
    PastGuestPages(path);
    RoutesEntries();
    if MatchOne(TabsRoute, path).Some? {
      Take(Routes, 3, path);
    } else {
      Skip(Routes, 3, path);
      AfterTabs(path);
    }
  }

  /** The workouts tab matches the tabs parent and its workouts child. */
  lemma WorkoutsTabMatched()
    ensures Match(WorkoutsTab) == Some([TabsRoute, WorkoutsChild])
  {
    var rest := WorkoutsTab[1..];
    assert rest == ["workouts"];
    EmptyLeafMismatch(TabsIndex, rest);
    Skip(TabsRoute.children, 0, rest);
    assert PrefixMatches(WorkoutsChild.pattern, rest);
    LeafMatch(WorkoutsChild, rest);
    Take(TabsRoute.children, 1, rest);
    assert MatchFrom(TabsRoute.children, 0, rest) == Some([WorkoutsChild]);
    assert PrefixMatches(TabsRoute.pattern, WorkoutsTab);
    assert WorkoutsTab[|TabsRoute.pattern|..] == rest;
    ParentMatch(TabsRoute, WorkoutsTab, [WorkoutsChild]);
    assert [TabsRoute] + [WorkoutsChild] == [TabsRoute, WorkoutsChild];
    TabsMatched(WorkoutsTab);
  }

  /** Whatever a path under "tabs" resolves to, the tabs parent is among the
      matched records, so the route needs a signed-in user. */
  lemma TabsPathsProtected(path: seq<string>)
    requires |path| > 0 && SameSegment(path[0], "tabs")
    ensures Resolve(path).Some? ==> Resolve(path).value[0] == TabsRoute && RequiresAuth(Resolve(path).value)
  {
    TabsMatched(path);
    var m := Match(path);
    if m.Some? && m.value[|m.value| - 1].redirect.Some? {
      var last := m.value[|m.value| - 1];
      assert last == RootRoute || last == TabsIndex by {
        TabsRedirects(path);
      }
      WorkoutsTabMatched();
      assert Resolve(path) == Some([TabsRoute, WorkoutsChild]);
    }
    if Resolve(path).Some? {
      assert Resolve(path).value[0].meta.requiresAuth;
    }
  }

  /** The only redirecting record under the tabs parent is its index. */
  lemma TabsRedirects(path: seq<string>)
    requires |path| > 0 && SameSegment(path[0], "tabs")
    requires Match(path).Some?
    ensures var m := Match(path).value; m[|m| - 1].redirect.Some? ==> m[|m| - 1] == TabsIndex
  {
    TabsMatched(path);
    var rest := path[1..];
    var chain := MatchFrom(TabsRoute.children, 0, rest);
    assert chain.Some?;
    assert Match(path).value == [TabsRoute] + chain.value;
    var i :| 0 <= i < |TabsRoute.children| && chain == MatchOne(TabsRoute.children[i], rest);
    assert TabsRoute.children[i].children == [];
    assert chain.value == [TabsRoute.children[i]];
  }

  /** "/" resolves, through its redirect, to the workouts tab. */
  lemma RootResolves()
    ensures Resolve([]) == Some([TabsRoute, WorkoutsChild])
  {
    LeafMatch(RootRoute, []);
    Take(Routes, 0, []);
    WorkoutsTabMatched();
  }

  /** The login and sign-up pages, in any letter case, are guest-only and
      not protected. */
  lemma GuestPages(page: string)
    requires SameSegment(page, "login") || SameSegment(page, "signup")
    ensures Resolve([page]).Some?
    ensures RequiresGuest(Resolve([page]).value) && !RequiresAuth(Resolve([page]).value)
  {
    var path := [page];
    PastRoot(path);
    if SameSegment(page, "login") {
      LeafMatch(LoginRoute, path);
      Take(Routes, 1, path);
      assert Resolve(path) == Some([LoginRoute]);
    } else {
      PastLogin(path);
      LeafMatch(SignupRoute, path);
      Take(Routes, 2, path);
      assert Resolve(path) == Some([SignupRoute]);
    }
  }

  /** Everything before the detail routes passes over a path that does not
      start with "tabs", "login" or "signup". */
  lemma BeforeDetails(path: seq<string>)
    requires |path| > 0 && !SameSegment(path[0], "tabs") && !SameSegment(path[0], "login") && !SameSegment(path[0], "signup")
    ensures Match(path) == MatchFrom(Routes, 4, path)
  {
    PastGuestPages(path);
    PastTabs(path);
  }

  /** The tabs parent passes over a path that does not start with "tabs". */
  lemma PastTabs(path: seq<string>)
    requires |path| > 0 && !SameSegment(path[0], "tabs")
    ensures MatchFrom(Routes, 3, path) == MatchFrom(Routes, 4, path)
  {
    RoutesEntries();
    LiteralMismatch(TabsRoute, "tabs", path);
    Skip(Routes, 3, path);
  }

  /** An exercise's or a workout's detail page, in any letter case and for
      any non-empty id, is protected. */
  lemma DetailPagesProtected(kind: string, id: string)
    requires SameSegment(kind, "exercises") || SameSegment(kind, "workouts")
    requires id != ""
    ensures Resolve([kind, id]).Some?
    ensures RequiresAuth(Resolve([kind, id]).value) && !RequiresGuest(Resolve([kind, id]).value)
  {
    var path := [kind, id];
    BeforeDetails(path);
    if SameSegment(kind, "exercises") {
      assert PrefixMatches(ExerciseDetailRoute.pattern, path);
      LeafMatch(ExerciseDetailRoute, path);
      Take(Routes, 4, path);
      assert Resolve(path) == Some([ExerciseDetailRoute]);
    } else {
      PastExerciseDetail(path);
      assert PrefixMatches(WorkoutDetailRoute.pattern, path);
      LeafMatch(WorkoutDetailRoute, path);
      Take(Routes, 5, path);
      assert Resolve(path) == Some([WorkoutDetailRoute]);
    }
  }

  /** Once the session is initialised, a signed-out visitor to any tab is
      sent to the login page. */
  lemma SignedOutTabsToLogin(path: seq<string>)
    requires |path| > 0 && SameSegment(path[0], "tabs") && Resolve(path).Some?
    ensures BeforeEach(Resolve(path).value, true, None) == Some(RedirectTo(LoginPath))
  {
    var matched := Resolve(path).value;
    TabsPathsProtected(path);
    HandleNavigationCases(matched, false);
  }

  /** Once the session is initialised, a signed-in visitor to the login or
      sign-up page is sent to the workouts tab. */
  lemma SignedInGuestPagesToWorkouts(page: string, user: AuthUser)
    requires SameSegment(page, "login") || SameSegment(page, "signup")
    ensures Resolve([page]).Some?
    ensures BeforeEach(Resolve([page]).value, true, Some(user)) == Some(RedirectTo(WorkoutsPath))
  {
    GuestPages(page);
    var matched := Resolve([page]).value;
    HandleNavigationCases(matched, true);
  }

  /** Letter case does not get around the guard: "/LOGIN" is the guest-only
      login page. */
  lemma UpperCaseLogin()
    ensures Resolve(["LOGIN"]).Some? && RequiresGuest(Resolve(["LOGIN"]).value)
  {
    assert SameSegment("LOGIN", "login") by {
      assert forall i :: 0 <= i < 5 ==> LowerChar("LOGIN"[i]) == "login"[i];
    }
    GuestPages("LOGIN");
  }
}
