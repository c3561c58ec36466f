/** client/src/App.js: the shell's login state and sidebar flag, what the
    navigation bar shows, and which page each client route renders. Browser
    storage is a map from key to stored text; rendering is the choice of a
    `Page`. */
module App {
  import opened Models
  import AuthController

  /** `{ user, token }` as the shell keeps it after a login. */
  datatype Auth = Auth(user: Option<AuthController.PublicUser>, token: Option<string>)

  const LoggedOut := Auth(None, None)

  predicate IsAdmin(user: Option<AuthController.PublicUser>) {
    user.Some? && user.value.role == AdminRole
  }

  /** The pages a route can render (`NoPage`: no route matches). */
  datatype Page =
    | LandingPage | CampaignListPage | CampaignDetailsPage | CreateCampaignPage | RegisterPage
    | LoginPage | AdminDashboardPage | UserDashboardPage | ApplyCampaignPage | NoPage

  /** The element of the route matching `path` (split into segments). */
  function RouteElement(path: seq<string>, user: Option<AuthController.PublicUser>): (p: Page)
    ensures path == ["create"] ==> p == (if IsAdmin(user) then CreateCampaignPage else LoginPage)
    ensures path == ["dashboard"] ==>
      p == (if IsAdmin(user) then AdminDashboardPage
            else if user.Some? then UserDashboardPage else LoginPage)
    ensures path == ["apply"] ==> p == (if user.Some? then ApplyCampaignPage else LoginPage)
  {
    if path == [] then LandingPage
    else if path == ["campaigns"] then CampaignListPage
    else if |path| == 2 && path[0] == "campaigns" && path[1] != "" then CampaignDetailsPage
    else if path == ["create"] then (if IsAdmin(user) then CreateCampaignPage else LoginPage)
    else if path == ["register"] then RegisterPage
    else if path == ["login"] then LoginPage
    else if path == ["dashboard"] then
      (if user.Some? then (if user.value.role == AdminRole then AdminDashboardPage else UserDashboardPage)
       else LoginPage)
    else if path == ["apply"] then (if user.Some? then ApplyCampaignPage else LoginPage)
    else NoPage
  }

  /** Only an administrator is ever shown the campaign form or the admin
      dashboard, and a visitor who is not logged in is never shown a page
      that needs a user: at every path. */
  lemma PagesAreGated(path: seq<string>, user: Option<AuthController.PublicUser>)
    ensures RouteElement(path, user) in {CreateCampaignPage, AdminDashboardPage} ==> IsAdmin(user)
    ensures RouteElement(path, user) in {UserDashboardPage, ApplyCampaignPage} ==> user.Some?
    ensures user.None? ==>
      (RouteElement(path, user) in
         {LandingPage, CampaignListPage, CampaignDetailsPage, RegisterPage, LoginPage, NoPage})
  {
  }

  /** The `Apply for Campaign` link: shown to a logged-in user who is not
      an administrator. */
  function ShowApplyLink(user: Option<AuthController.PublicUser>): (shown: bool)
    ensures shown <==> user.Some? && !IsAdmin(user)
  {
    user.Some? && user.value.role != AdminRole
  }

  /** The dashboard overlay: never shown to a visitor who is not logged in;
      for a logged-in user, shown exactly while the sidebar is open. */
  function ShowOverlay(auth: Auth, sidebarOpen: bool): (shown: bool)
    ensures shown ==> auth.user.Some?
    ensures auth.user.Some? ==> (shown <==> sidebarOpen)
  {
    auth.user.Some? && sidebarOpen
  }

  /** An administrator never sees the apply link, and the link leads to a
      page that renders the application form for whoever sees it. */
  lemma ApplyLinkLeadsToForm(user: Option<AuthController.PublicUser>)
    ensures ShowApplyLink(user) ==> !IsAdmin(user) && RouteElement(["apply"], user) == ApplyCampaignPage
    ensures IsAdmin(user) ==> !ShowApplyLink(user)
  {
  }

  const UserKey := "user"
  const TokenKey := "token"

  /** The shell's state, with the browser's storage and location. */
  class Shell {
    var auth: Auth
    var sidebarOpen: bool
    var storage: map<string, string>
    var location: string

    /** The first render: the `useState` values; the storage is whatever
      the browser already holds. */
    constructor (stored: map<string, string>, at: string)
      ensures auth == LoggedOut && !sidebarOpen && storage == stored && location == at
    {
      auth, sidebarOpen, storage, location := LoggedOut, false, stored, at;
    }

    /** The mount effect: always start logged out, forgetting any stored
      login. */
    method Mount()
      modifies this
      ensures auth == LoggedOut
      ensures storage == old(storage) - {UserKey, TokenKey}
      ensures sidebarOpen == old(sidebarOpen) && location == old(location)
    {
      storage := storage - {UserKey};
      storage := storage - {TokenKey};
      auth := LoggedOut;
    }

    /** `handleLogout`: the same as the mount effect. */
    method HandleLogout()
      modifies this
      ensures auth == LoggedOut
      ensures storage == old(storage) - {UserKey, TokenKey}
      ensures sidebarOpen == old(sidebarOpen) && location == old(location)
    {
      storage := storage - {UserKey};
      storage := storage - {TokenKey};
      auth := LoggedOut;
    }

    /** `setAuth`, as the login page calls it. */
    method SetAuth(a: Auth)
      modifies this
      ensures auth == a
      ensures sidebarOpen == old(sidebarOpen) && storage == old(storage) && location == old(location)
    {
      auth := a;
    }

    /** The avatar: toggles the sidebar for a logged-in user; otherwise
      goes to the registration page and leaves the sidebar alone. */
    method AvatarClick()
      modifies this
      ensures old(auth).user.Some? ==> sidebarOpen == !old(sidebarOpen) && location == old(location)
      ensures old(auth).user.None? ==> sidebarOpen == old(sidebarOpen) && location == "/register"
      ensures auth == old(auth) && storage == old(storage)
    {
      if auth.user.Some? {
        sidebarOpen := !sidebarOpen;
      } else {
        location := "/register";
      }
    }

    /** The overlay's close button. */
    method CloseSidebar()
      modifies this
      ensures !sidebarOpen
      ensures auth == old(auth) && storage == old(storage) && location == old(location)
    {
      sidebarOpen := false;
    }
  }

  /** After logging out nothing of the session is left: the overlay is
      hidden whatever the sidebar flag, and every gated page falls back to
      the login page. */
  lemma LogoutHidesSession(sidebarOpen: bool, path: seq<string>)
    ensures !ShowOverlay(LoggedOut, sidebarOpen)
    ensures !ShowApplyLink(LoggedOut.user)
    ensures path in {["create"], ["dashboard"], ["apply"]} ==> RouteElement(path, LoggedOut.user) == LoginPage
  {
  }
}
