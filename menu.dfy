/** The side menu: the pages it links to and its logout button. */
module Menu {
  import opened Json
  import opened Js
  import opened Auth
  import opened AuthFacts

  /** A menu entry: its title and the route it opens. */
  datatype AppPage = AppPage(title: string, url: string)

  const AuthPages: seq<AppPage> :=
    [AppPage("Dashboard", "/dashboard"), AppPage("Contacts", "/contacts"), AppPage("Calendar", "/calendar")]

  const PublicPages: seq<AppPage> := [AppPage("Login", "/login")]

  /** getAppPages: the signed-in pages for an authenticated user, the login page otherwise. */
  function AppPages(isAuthenticated: bool): (pages: seq<AppPage>)
    ensures isAuthenticated ==> pages == AuthPages
    ensures !isAuthenticated ==> pages == PublicPages
  {
    if isAuthenticated then AuthPages else PublicPages
  }

  /** The two page sets share no route, so no page is reachable from the menu both signed in and out. */
  lemma PageSetsShareNoUrl(a: AppPage, b: AppPage)
    requires a in AppPages(true) && b in AppPages(false)
    ensures a.url != b.url
  {
  }

  /** A signed-in user sees three pages in a fixed order; a signed-out user only the login page. */
  lemma MenuPages()
    ensures |AppPages(true)| == 3 && |AppPages(false)| == 1
    ensures AppPages(true)[0].url == "/dashboard" && AppPages(true)[1].url == "/contacts" && AppPages(true)[2].url == "/calendar"
    ensures AppPages(false)[0].url == "/login"
  {
  }

  /** The logout button is drawn only for an authenticated user. */
  function LogoutShown(isAuthenticated: bool): (shown: bool)
    ensures shown <==> isAuthenticated
  {
    isAuthenticated
  }

  /** The logout button and the signed-in pages go together: neither is drawn without the other. */
  lemma LogoutShownWithAuthPages(isAuthenticated: bool)
    ensures LogoutShown(isAuthenticated) <==> AppPages(isAuthenticated) == AuthPages
    ensures !LogoutShown(isAuthenticated) <==> AppPages(isAuthenticated) == PublicPages
  {
    assert |AuthPages| != |PublicPages|;
  }

  /**
   * `isAuthenticated: !!user` of the auth context, whose user follows the service's user subject.
   * It is stricter than the service's own `user !== null`: an undefined user, as published by a
   * login reply without a user, and a falsy one do not count as signed in.
   */
  function ContextAuthenticated(user: JsValue): (b: bool)
    ensures b ==> user != Null && user != Undefined
    ensures user.Val? && (user.json.JObj? || user.json.JArr?) ==> b
    ensures user.Val? && user.json.JBool? ==> (b <==> user.json.b)
  {
    Truthy(user)
  }

  /** The menu's own state: the "Logging out..." indicator, and every value it has been set to. */
  class MenuView {
    var loading: bool
    ghost var loadingSets: seq<bool>
    const auth: AuthService

    constructor(auth: AuthService)
      ensures this.auth == auth && !loading && loadingSets == []
    {
      this.auth := auth;
      loading := false;
      loadingSets := [];
    }

    /** The entries the menu lists for the session as it stands. */
    function Pages(): (pages: seq<AppPage>)
      reads this, auth
      ensures ContextAuthenticated(auth.user) ==> pages == AuthPages
      ensures !ContextAuthenticated(auth.user) ==> pages == PublicPages
      ensures pages == AuthPages ==> auth.IsAuthenticated()
    {
      AppPages(ContextAuthenticated(auth.user))
    }

    /** handleLogout: show the indicator, log out, and hide the indicator whatever happened. */
    method HandleLogout()
      modifies this, auth, auth.proxy.net
      ensures auth.Current() == LogoutSpec(auth.proxy.Channel(), old(auth.Current()))
      ensures !loading && loadingSets == old(loadingSets) + [true, false]
      ensures Pages() == PublicPages && !LogoutShown(ContextAuthenticated(auth.user))
    {
      loading := true;
      loadingSets := loadingSets + [true];
      auth.Logout();
      LogoutClears(auth.proxy.Channel(), old(auth.Current()));
      loading := false;
      loadingSets := loadingSets + [false];
    }
  }
}
