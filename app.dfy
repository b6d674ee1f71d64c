/**
 * The application shell (src/App.js): the `PrivateRoute` guard and the
 * route table it wraps, with the scenarios that connect it to the login
 * page, which writes the access token, and to the API layer, whose 403
 * path clears it, and the scenarios that run a page handler on what the
 * call wrappers deliver.
 */
module App {
  import opened Js
  import opened Session
  import opened Api
  import opened Login
  import CreatePost
  import opened Paths

  /** What `PrivateRoute` renders: the header and the nested route, or a redirect. */
  datatype View = Protected | Redirect(to: string, replace: bool)

  /** `PrivateRoute`: protected content only for an authenticated user with a truthy access token in the session store. */
  function PrivateRoute(isAuthenticated: bool, accessToken: Option<string>): (v: View)
    ensures v == Protected <==> isAuthenticated && accessToken.Some? && accessToken.value != ""
    ensures v != Protected ==> v == Redirect(AccountPath, true)
  {
    if isAuthenticated && accessToken.Some? && accessToken.value != "" then Protected
    else Redirect(AccountPath, true)
  }

  datatype Screen = LoginScreen | HomeScreen | CreateScreen | DetailScreen | UpdateScreen | AboutScreen | ContactScreen

  /** One route of the table; `guarded` routes are nested under `PrivateRoute`. */
  datatype Route = Route(path: string, screen: Screen, guarded: bool)

  const Routes: seq<Route> := [
    Route("/account", LoginScreen, false),
    Route("/", HomeScreen, true),
    Route("/create", CreateScreen, true),
    Route("/details/:id", DetailScreen, true),
    Route("/update/:id", UpdateScreen, true),
    Route("/about", AboutScreen, true),
    Route("/contact", ContactScreen, true)
  ]

  /** The screen a route shows, or where it redirects. */
  datatype Rendered = Shows(screen: Screen) | Redirected(to: string, replace: bool)

  function Render(route: Route, isAuthenticated: bool, accessToken: Option<string>): (r: Rendered)
    ensures !route.guarded ==> r == Shows(route.screen)
    ensures route.guarded ==>
              (r == Shows(route.screen) <==> PrivateRoute(isAuthenticated, accessToken) == Protected)
    ensures r.Redirected? ==> r == Redirected(AccountPath, true)
  {
    if !route.guarded then Shows(route.screen)
    else
      match PrivateRoute(isAuthenticated, accessToken)
      case Protected => Shows(route.screen)
      case Redirect(to, replace) => Redirected(to, replace)
  }

  /** Every route except the account page is guarded, and the account page always shows. */
  lemma OnlyAccountIsPublic()
    ensures forall i :: 0 <= i < |Routes| ==> (Routes[i].guarded <==> Routes[i].path != AccountPath)
    ensures forall i, auth, token :: 0 <= i < |Routes| && Routes[i].path == AccountPath ==>
              Render(Routes[i], auth, token) == Shows(LoginScreen)
  {
  }

  /** `isAuthenticated` starts false, so before a login every guarded route sends the user to the account page. */
  lemma BeforeLoginEverythingRedirects(accessToken: Option<string>)
    ensures forall i :: 0 <= i < |Routes| && Routes[i].path != AccountPath ==>
              Render(Routes[i], false, accessToken) == Redirected(AccountPath, true)
  {
    OnlyAccountIsPublic();
  }

  /** The token a successful login stores carries the `Bearer ` prefix, so it is truthy and opens the guard. */
  lemma LoginTokenOpensGuard(items: map<string, string>, data: JsValue)
    ensures AccessTokenKey in TokensWritten(items, data)
    ensures PrivateRoute(true, Some(TokensWritten(items, data)[AccessTokenKey])) == Protected
  {
    var token := BearerPrefix + ToText(Prop(data, "accessToken"));
    assert TokensWritten(items, data)[AccessTokenKey] == token;
    assert |token| >= |BearerPrefix|;
  }

  /**
   * Login followed by a 403 from any call: the guard opens after the login,
   * and closes again once the session store is cleared, although the
   * application still holds `isAuthenticated == true`.
   */
  method LoginThenSessionExpiry(response: Response, expired: TransportError, notices: Notices)
    returns (afterLogin: View, afterExpiry: View, stillAuthenticated: bool)
    requires response.status == OkStatus && !Nullish(response.data) && ExpiresSession(expired)
    ensures afterLogin == Protected
    ensures stillAuthenticated && afterExpiry == Redirect(AccountPath, true)
  {
    var store := new SessionStore();
    var page := new LoginPage(store);
    var call := CallExplicit(Responded(response), notices, store);
    page.LoginUser(call);
    LoginTokenOpensGuard(map[], response.data);
    afterLogin := PrivateRoute(page.authenticated, store.GetItem(AccessTokenKey));
    var result := ProcessError(expired, notices, store);
    stillAuthenticated := page.authenticated;
    afterExpiry := PrivateRoute(page.authenticated, store.GetItem(AccessTokenKey));
  }

  /**
   * A login the server rejects (a wrong password, any non-2xx status, no
   * answer at all) comes back from `API.userLogin` as a returned error, so
   * `loginUser` neither shows the failed-credentials message nor changes
   * anything else; only a 403 clears the session store on the way.
   */
  method RejectedLogin(page: LoginPage, rejection: TransportError, notices: Notices)
    modifies page, page.store
    ensures page.error == old(page.error) && page.account == old(page.account)
    ensures page.authenticated == old(page.authenticated) && page.navigatedTo == old(page.navigatedTo)
    ensures page.mode == old(page.mode) && page.login == old(page.login) && page.signup == old(page.signup)
    ensures page.store.items == if ExpiresSession(rejection) then map[] else old(page.store.items)
  {
    var call := CallExplicit(Rejected(rejection), notices, page.store);
    page.LoginUser(call);
  }

  /**
   * A post the server rejects: the generated `createPost` wrapper throws,
   * so the page shows the error-creating message and `loading` ends off.
   */
  method RejectedCreatePost(page: CreatePost.CreatePostPage, rejection: TransportError, notices: Notices,
                            store: SessionStore)
    requires page.Valid()
    modifies page, store
    ensures page.Valid() && page.post == old(page.post)
    ensures page.error == CreatePost.CreateErrorMessage && !page.loading
    ensures page.navigatedTo == old(page.navigatedTo)
    ensures store.items == if ExpiresSession(rejection) then map[] else old(store.items)
  {
    var call := CallGenerated(Rejected(rejection), notices, store);
    page.SavePostSettled(call);
  }
}
