/** `src/App.tsx`: the `user` state kept in step with the backend's session, the route
    table guarded by that state, and `handleSubscribe`. Also the wiring by which the
    plan dialog reaches `handleSubscribe` (`SubscriptionDialog.tsx` and `home.tsx`). */
module App {
  import opened Wrappers
  import opened Backend
  import opened Auth

  /** The declared routes. */
  datatype Route = HomeRoute | LoginRoute | SubscriptionsRoute | ChefRoute(id: string) | AuthCallbackRoute

  /** The prefix of the `/chef/:id` route. */
  const ChefPrefix: string := "/chef/"

  /** The route a path matches: the four fixed paths, or `/chef/` followed by one
      non-empty segment. */
  function MatchRoute(path: string): (r: Option<Route>)
    ensures r.Some? && r.value.ChefRoute? ==>
      path == ChefPrefix + r.value.id && r.value.id != [] && '/' !in r.value.id
  {
    if path == "/" then Some(HomeRoute)
    else if path == "/login" then Some(LoginRoute)
    else if path == "/subscriptions" then Some(SubscriptionsRoute)
    else if path == "/auth/callback" then Some(AuthCallbackRoute)
    else if |path| > |ChefPrefix| && path[..|ChefPrefix|] == ChefPrefix && '/' !in path[|ChefPrefix|..] then
      assert path == ChefPrefix + path[|ChefPrefix|..];
      Some(ChefRoute(path[|ChefPrefix|..]))
    else None
  }

  /** The pages the routes render. */
  datatype Page = HomePage | LoginPage | SubscriptionsPage | ChefProfilePage(id: string) | AuthCallbackPage

  /** What the router shows for a path: a page, a `<Navigate replace>` to another
      path, or nothing when no route matches. */
  datatype View = Render(page: Page) | Redirect(to: string) | NoMatch

  /** The `element` of each route, given whether `user` is set. */
  function Element(r: Route, signedIn: bool): (v: View)
    ensures v.Redirect? ==> v.to == (if signedIn then "/" else "/login")
    ensures v.Render? && v.page.LoginPage? ==> !signedIn
    ensures v.Render? && (v.page.HomePage? || v.page.SubscriptionsPage? || v.page.ChefProfilePage?) ==> signedIn
    ensures v.Render? || v.Redirect?
  {
    match r
    case HomeRoute => if signedIn then Render(HomePage) else Redirect("/login")
    case LoginRoute => if !signedIn then Render(LoginPage) else Redirect("/")
    case SubscriptionsRoute => if signedIn then Render(SubscriptionsPage) else Redirect("/login")
    case ChefRoute(id) => if signedIn then Render(ChefProfilePage(id)) else Redirect("/login")
    case AuthCallbackRoute => Render(AuthCallbackPage)
  }

  /** What the router shows at `path`. */
  function RouteView(path: string, signedIn: bool): (v: View)
    ensures v.Render? && (v.page.HomePage? || v.page.SubscriptionsPage? || v.page.ChefProfilePage?) ==> signedIn
    ensures v.NoMatch? <==> MatchRoute(path).None?
  {
    match MatchRoute(path)
    case None => NoMatch
    case Some(r) => Element(r, signedIn)
  }

  /** `session?.user ?? null`. */
  function UserOf(session: Option<Session>): (u: Option<User>)
    ensures u.Some? <==> session.Some?
    ensures session.Some? ==> u.value == session.value.user
  {
    match session
    case None => None
    case Some(s) => Some(s.user)
  }

  /** The `user` state after the backend has reported the given sessions in order,
      each report (the initial `getSession` or an auth-state event) calling
      `setUser(session?.user ?? null)`. */
  function UserAfter(user: Option<User>, reports: seq<Option<Session>>): Option<User>
    decreases reports
  {
    if reports == [] then user else UserAfter(UserOf(reports[0]), reports[1..])
  }

  /** A toast. */
  datatype Toast = Toast(title: string, description: string, destructive: bool)

  const PleaseLoginToast: Toast := Toast("Please login", "You need to be logged in to subscribe", true)

  const SubscriptionFailedToast: Toast :=
    Toast("Subscription failed", "There was an error processing your subscription.", true)

  function SubscribedToast(plan: Plan): Toast {
    Toast("Subscription successful!", "You have successfully subscribed to the " + PeriodName(plan) + " plan.", false)
  }

  /** The toast `handleSubscribe` shows: "Please login" without a user, otherwise the
      success toast naming the plan or the failure toast when `createSubscription`
      throws. */
  function SubscribeToast(user: Option<User>, plan: Plan, insertError: Option<string>): (t: Toast)
    ensures user.None? ==> t == PleaseLoginToast
    ensures t.destructive <==> user.None? || insertError.Some?
    ensures user.Some? && insertError.None? ==> t.title == "Subscription successful!" && t == SubscribedToast(plan)
    ensures user.Some? && insertError.Some? ==> t == SubscriptionFailedToast && t.title == "Subscription failed"
  {
    if user.None? then PleaseLoginToast
    else if insertError.None? then SubscribedToast(plan)
    else SubscriptionFailedToast
  }

  /** The arguments `handleSubscribe` receives; `undefined` is `None`. */
  datatype SubscribeCall = SubscribeCall(plan: Plan, cuisineType: Option<string>, deliveryAddressId: Option<string>)

  /** Choosing a plan in the dialog calls `onSubscribe(plan.id)` with the plan alone, and
      the home page passes its `onSubscribe` prop through unchanged. */
  function DialogChoosePlan(plan: Plan): SubscribeCall {
    SubscribeCall(plan, None, None)
  }

  /** The application shell's state. */
  class AppState {
    var user: Option<User>
    var listening: bool
    var toasts: seq<Toast>
    const db: Database

    /** `useState(null)`, before the effect has run. */
    constructor (db: Database)
      ensures user.None? && !listening && toasts == [] && this.db == db
    {
      user := None;
      listening := false;
      toasts := [];
      this.db := db;
    }

    /** The effect registers the auth-state listener. */
    method Mount()
      modifies this`listening
      ensures listening
    {
      listening := true;
    }

    /** The initial `getSession` resolves. */
    method OnInitialSession(session: Option<Session>)
      modifies this`user
      ensures user == UserOf(session)
    {
      user := UserOf(session);
    }

    /** An auth-state event: reaches the state only while the listener is registered. */
    method OnAuthStateChange(session: Option<Session>)
      modifies this`user
      ensures listening ==> user == UserOf(session)
      ensures !listening ==> user == old(user)
    {
      if listening {
        user := UserOf(session);
      }
    }

    /** The effect's cleanup unsubscribes the listener. */
    method Unmount()
      modifies this`listening
      ensures !listening
    {
      listening := false;
    }

    /** `handleSubscribe`: without a user show "Please login" and stop; otherwise call
        `createSubscription(user.id, ...)` and toast its outcome. */
    method HandleSubscribe(call: SubscribeCall, now: int, insertError: Option<string>)
      modifies this`toasts, db`subscriptions
      ensures toasts == old(toasts) + [SubscribeToast(user, call.plan, insertError)]
      ensures user.None? ==> db.subscriptions == old(db.subscriptions)
      ensures user.Some? ==>
        db.subscriptions == old(db.subscriptions) +
          (if insertError.None?
           then [SubscriptionRecord(user.value.id, call.plan, call.cuisineType, call.deliveryAddressId, old(db.authUser), now)]
           else [])
    {
      if user.None? {
        toasts := toasts + [PleaseLoginToast];
        return;
      }
      var r := CreateSubscription(db, user.value.id, call.plan, call.cuisineType, call.deliveryAddressId, now, insertError);
      if r.Success? {
        toasts := toasts + [SubscribedToast(call.plan)];
      } else {
        toasts := toasts + [SubscriptionFailedToast];
      }
    }
  }

  // Properties of the route table.

  /** `/`, `/subscriptions` and `/chef/:id` render their page exactly when signed in and
      otherwise redirect to `/login`. */
  lemma GuardedRoutes(signedIn: bool, id: string)
    requires id != [] && '/' !in id
    ensures RouteView("/", signedIn) == if signedIn then Render(HomePage) else Redirect("/login")
    ensures RouteView("/subscriptions", signedIn) == if signedIn then Render(SubscriptionsPage) else Redirect("/login")
    ensures RouteView(ChefPrefix + id, signedIn) == if signedIn then Render(ChefProfilePage(id)) else Redirect("/login")
  {
    var p := ChefPrefix + id;
    assert p[..|ChefPrefix|] == ChefPrefix && p[|ChefPrefix|..] == id;
    assert p != "/" && p != "/login" && p != "/subscriptions" && p != "/auth/callback" by {
      assert |p| > 6;
      assert p[1] == 'c';
    }
  }

  /** `/login` renders the login page exactly when signed out and otherwise redirects
      to `/`; `/auth/callback` renders in both states. */
  lemma LoginAndCallbackRoutes(signedIn: bool)
    ensures RouteView("/login", signedIn) == if signedIn then Redirect("/") else Render(LoginPage)
    ensures RouteView("/auth/callback", signedIn) == Render(AuthCallbackPage)
  {
  }

  /** For a fixed `user`, a redirect lands on a page that renders: there is never a
      second redirect, so no loop. */
  lemma NoRedirectLoop(path: string, signedIn: bool)
    requires RouteView(path, signedIn).Redirect?
    ensures RouteView(RouteView(path, signedIn).to, signedIn).Render?
  {
  }

  /** `/error` matches no declared route. */
  lemma ErrorPathUnmatched(signedIn: bool)
    ensures RouteView("/error", signedIn) == NoMatch
  {
    var p := "/error";
    assert p[1] == 'e';
    assert p[..|ChefPrefix|] != ChefPrefix by {
      assert p[..|ChefPrefix|][1] != ChefPrefix[1];
    }
  }

  // Properties of the session state.

  /** The last report decides `user`, whatever came before it. */
  lemma {:induction false} LastReportWins(user: Option<User>, reports: seq<Option<Session>>)
    requires reports != []
    ensures UserAfter(user, reports) == UserOf(reports[|reports| - 1])
    decreases reports
  {
    if |reports| > 1 {
      LastReportWins(UserOf(reports[0]), reports[1..]);
    }
  }

  /** Reports are applied one after another: a run of reports is the first part then
      the rest. */
  lemma {:induction false} ReportsCompose(user: Option<User>, first: seq<Option<Session>>, rest: seq<Option<Session>>)
    ensures UserAfter(user, first + rest) == UserAfter(UserAfter(user, first), rest)
    decreases first
  {
    if first != [] {
      assert (first + rest)[0] == first[0];
      assert (first + rest)[1..] == first[1..] + rest;
      ReportsCompose(UserOf(first[0]), first[1..], rest);
    } else {
      assert first + rest == rest;
    }
  }

  // Properties of `handleSubscribe`.

  /** Without a user `handleSubscribe` shows "Please login" and never reaches the
      backend, whatever it is called with. */
  lemma NoUserNoSubscription(plan: Plan, insertError: Option<string>)
    ensures SubscribeToast(None, plan, insertError) == PleaseLoginToast
    ensures PleaseLoginToast.title == "Please login" && PleaseLoginToast.destructive
  {
  }

  /** Through the dialog, `createSubscription` receives `undefined` cuisine and address:
      every subscription made that way stores "All Cuisines" and no address. */
  lemma DialogSubscriptionDefaults(plan: Plan, userId: string, authUser: Option<User>, now: int)
    ensures var call := DialogChoosePlan(plan);
      var row := SubscriptionRecord(userId, call.plan, call.cuisineType, call.deliveryAddressId, authUser, now);
      row.cuisineType == "All Cuisines" && row.deliveryAddressId.None? && row.price == Price(plan)
  {
  }
}
