/**
 * The single-page shell (App.tsx): navigation targets, the demo admin login and logout, and
 * which screen is rendered for a given state. The page is the raw string a link passes in,
 * so unknown targets are kept as they are and render the home page.
 */
module AppNavigation {
  import opened Wrappers
  import opened Text
  import AdminAuthApi

  const ProductPrefix := "product/"
  const ConfirmationPrefix := "confirmation/"

  const DemoEmail := "admin@nujuumarts.com"
  const DemoPassword := "admin123"
  const InvalidLogin := "Invalid email or password"

  /** The three navigation fields: the current page, the product slug and the confirmation order id. */
  datatype Route = Route(page: string, slug: string, orderId: string)

  /**
   * `handleNavigation`: 'product/X' opens product X on the shop page, 'confirmation/X' opens
   * the confirmation of order X on the checkout page, each leaving the other field alone; any
   * other target becomes the page and clears both.
   */
  function Navigate(r: Route, target: string): (n: Route)
    ensures StartsWith(target, ProductPrefix) ==>
      n.page == "shop" && ProductPrefix + n.slug == target && n.orderId == r.orderId
    ensures !StartsWith(target, ProductPrefix) && StartsWith(target, ConfirmationPrefix) ==>
      n.page == "checkout" && ConfirmationPrefix + n.orderId == target && n.slug == r.slug
    ensures !StartsWith(target, ProductPrefix) && !StartsWith(target, ConfirmationPrefix) ==>
      n == Route(target, "", "")
  {
    if StartsWith(target, ProductPrefix) then r.(page := "shop", slug := DropPrefix(target, ProductPrefix))
    else if StartsWith(target, ConfirmationPrefix) then r.(page := "checkout", orderId := DropPrefix(target, ConfirmationPrefix))
    else Route(target, "", "")
  }

  /** Opening a product sets exactly the slug and the shop page. */
  lemma NavigateToProduct(r: Route, slug: string)
    ensures Navigate(r, ProductPrefix + slug) == Route("shop", slug, r.orderId)
  {
    assert (ProductPrefix + slug)[..|ProductPrefix|] == ProductPrefix;
  }

  /** Opening a confirmation sets exactly the order id and the checkout page. */
  lemma NavigateToConfirmation(r: Route, orderId: string)
    ensures Navigate(r, ConfirmationPrefix + orderId) == Route("checkout", r.slug, orderId)
  {
    var t := ConfirmationPrefix + orderId;
    assert t[..|ConfirmationPrefix|] == ConfirmationPrefix;
    assert t[0] == 'c';
  }

  /** The outcome of the demo login check. */
  datatype LoginAttempt = Granted(user: AdminAuthApi.AdminUser) | Refused(error: string)

  /** The demo credentials are the only ones accepted. */
  function DemoLogin(email: string, password: string): (a: LoginAttempt)
    ensures a.Granted? <==> email == DemoEmail && password == DemoPassword
    ensures a.Granted? ==> a.user == AdminAuthApi.AdminUser(DemoEmail, "Admin User", "admin")
    ensures a.Refused? ==> a.error == InvalidLogin
  {
    if email == DemoEmail && password == DemoPassword then Granted(AdminAuthApi.AdminUser(email, "Admin User", "admin"))
    else Refused(InvalidLogin)
  }

  /** The sub-page of the admin panel. */
  datatype AdminView = OverviewView | ProductsView | OrdersView

  /** `renderAdminView`: 'products' and 'orders' by name, anything else the overview. */
  function AdminViewOf(view: string): (v: AdminView)
    ensures v == ProductsView <==> view == "products"
    ensures v == OrdersView <==> view == "orders"
  {
    if view == "products" then ProductsView
    else if view == "orders" then OrdersView
    else OverviewView
  }

  /** What `renderPage` shows. */
  datatype Screen =
    | AdminLoginForm
    | AdminPanel(view: AdminView)
    | ProductDetail(slug: string)
    | Confirmation(orderId: string)
    | ShopScreen
    | CartScreen
    | CheckoutScreen
    | AboutScreen
    | ContactScreen
    | HomeScreen

  /** The regular page switch, home being the default. */
  function PageScreen(page: string): (s: Screen)
    ensures s == HomeScreen <==> page !in {"shop", "cart", "checkout", "about", "contact"}
  {
    if page == "shop" then ShopScreen
    else if page == "cart" then CartScreen
    else if page == "checkout" then CheckoutScreen
    else if page == "about" then AboutScreen
    else if page == "contact" then ContactScreen
    else HomeScreen
  }

  /**
   * `renderPage`: the admin login form, then the admin panel (only when authenticated), then
   * the product page whenever a slug is set, then the confirmation whenever an order id is
   * set, then the page switch.
   */
  function RenderPage(r: Route, authenticated: bool, adminView: string): (s: Screen)
    ensures r.page == "admin-login" ==> s == AdminLoginForm
    ensures s.AdminPanel? <==> r.page == "admin" && authenticated
    ensures s.AdminPanel? ==> s.view == AdminViewOf(adminView)
    ensures s.ProductDetail? <==> r.page != "admin-login" && !(r.page == "admin" && authenticated) && r.slug != ""
    ensures s.ProductDetail? ==> s.slug == r.slug
    ensures s.Confirmation? ==> r.slug == "" && s.orderId == r.orderId != ""
    ensures r.page != "admin-login" && !(r.page == "admin" && authenticated) && r.slug == "" && r.orderId != "" ==>
      s == Confirmation(r.orderId)
    ensures r.page != "admin-login" && !s.AdminPanel? && r.slug == "" && r.orderId == "" ==> s == PageScreen(r.page)
  {
    if r.page == "admin-login" then AdminLoginForm
    else if r.page == "admin" && authenticated then AdminPanel(AdminViewOf(adminView))
    else if r.slug != "" then ProductDetail(r.slug)
    else if r.orderId != "" then Confirmation(r.orderId)
    else PageScreen(r.page)
  }

  /** An 'admin' page without a login falls through to the home page. */
  lemma UnauthenticatedAdminShowsHome(adminView: string)
    ensures RenderPage(Route("admin", "", ""), false, adminView) == HomeScreen
  {
  }

  /** A plain target renders its own page, whatever product or confirmation was open before. */
  lemma PlainTargetShowsItsPage(r: Route, target: string, authenticated: bool, adminView: string)
    requires !StartsWith(target, ProductPrefix) && !StartsWith(target, ConfirmationPrefix)
    requires target != "admin-login" && target != "admin"
    ensures RenderPage(Navigate(r, target), authenticated, adminView) == PageScreen(target)
  {
  }

  /** With a product open, following a confirmation link still renders that product. */
  lemma ProductHidesConfirmation(r: Route, slug: string, orderId: string, authenticated: bool, adminView: string)
    requires slug != ""
    ensures RenderPage(Navigate(Navigate(r, ProductPrefix + slug), ConfirmationPrefix + orderId), authenticated, adminView)
      == ProductDetail(slug)
  {
    NavigateToProduct(r, slug);
    NavigateToConfirmation(Route("shop", slug, r.orderId), orderId);
  }

  /** The authenticated admin panel is shown even while a product slug is still set. */
  lemma AdminPanelOverridesProduct(slug: string, orderId: string)
    ensures RenderPage(Route("admin", slug, orderId), true, "overview") == AdminPanel(OverviewView)
  {
  }

  /** Logout sets the page to 'home' but keeps the slug, so a product opened earlier is what shows. */
  lemma LogoutKeepsOpenProduct(slug: string, orderId: string)
    requires slug != ""
    ensures RenderPage(Route("home", slug, orderId), false, "overview") == ProductDetail(slug)
  {
  }

  /** The state of the App component. */
  class App {
    var route: Route
    var isAdminAuthenticated: bool
    var adminUser: Option<AdminAuthApi.AdminUser>
    var adminView: string
    var loginError: string
    var isLoggingIn: bool

    constructor ()
      ensures route == Route("home", "", "") && !isAdminAuthenticated && adminUser == None
      ensures adminView == "overview" && loginError == "" && !isLoggingIn
    {
      route := Route("home", "", "");
      isAdminAuthenticated := false;
      adminUser := None;
      adminView := "overview";
      loginError := "";
      isLoggingIn := false;
    }

    method HandleNavigation(target: string)
      modifies this
      ensures route == Navigate(old(route), target)
      ensures isAdminAuthenticated == old(isAdminAuthenticated) && adminUser == old(adminUser)
      ensures adminView == old(adminView) && loginError == old(loginError) && isLoggingIn == old(isLoggingIn)
    {
      route := Navigate(route, target);
    }

    /** `showAdminLogin`: only the page changes, to the login form. */
    method ShowAdminLogin()
      modifies this
      ensures route == old(route).(page := "admin-login")
      ensures isAdminAuthenticated == old(isAdminAuthenticated) && adminUser == old(adminUser)
      ensures adminView == old(adminView) && loginError == old(loginError) && isLoggingIn == old(isLoggingIn)
    {
      route := route.(page := "admin-login");
    }

    /** The login form's back button: only the page changes, to 'home'; slug and order id are kept. */
    method LoginFormBack()
      modifies this
      ensures route == old(route).(page := "home")
      ensures isAdminAuthenticated == old(isAdminAuthenticated) && adminUser == old(adminUser)
      ensures adminView == old(adminView) && loginError == old(loginError) && isLoggingIn == old(isLoggingIn)
    {
      route := route.(page := "home");
    }

    /**
     * `handleAdminLogin`: the demo credentials log in and open the overview; anything else
     * only sets the error. The spinner is off again afterwards either way.
     */
    method HandleAdminLogin(email: string, password: string)
      modifies this
      ensures !isLoggingIn
      ensures DemoLogin(email, password).Granted? ==>
        && adminUser == Some(DemoLogin(email, password).user)
        && isAdminAuthenticated
        && route == old(route).(page := "admin")
        && adminView == "overview"
        && loginError == ""
      ensures DemoLogin(email, password).Refused? ==>
        && loginError == InvalidLogin
        && adminUser == old(adminUser) && isAdminAuthenticated == old(isAdminAuthenticated)
        && route == old(route) && adminView == old(adminView)
    {
      isLoggingIn := true;
      loginError := "";
      var attempt := DemoLogin(email, password);
      match attempt {
        case Granted(user) =>
          adminUser := Some(user);
          isAdminAuthenticated := true;
          route := route.(page := "admin");
          adminView := "overview";
        case Refused(error) =>
          loginError := error;
      }
      isLoggingIn := false;
    }

    /** `handleAdminLogout`: back to a logged-out home page with the overview selected. */
    method HandleAdminLogout()
      modifies this
      ensures !isAdminAuthenticated && adminUser == None
      ensures route == old(route).(page := "home") && adminView == "overview"
      ensures loginError == old(loginError) && isLoggingIn == old(isLoggingIn)
    {
      isAdminAuthenticated := false;
      adminUser := None;
      route := route.(page := "home");
      adminView := "overview";
    }

    /** The admin layout's view switch. */
    method SetAdminView(view: string)
      modifies this
      ensures adminView == view
      ensures route == old(route) && isAdminAuthenticated == old(isAdminAuthenticated) && adminUser == old(adminUser)
      ensures loginError == old(loginError) && isLoggingIn == old(isLoggingIn)
    {
      adminView := view;
    }
  }
}
