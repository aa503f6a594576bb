/** The sidebar's navigation items and the `renderPageContent` selector of
    components/dashboard-layout.tsx: which view the main pane shows. */
module Views {
  import opened Outcomes

  /** One sidebar entry; its icon is presentation only and is not kept. */
  datatype NavItem = NavItem(title: string, href: string)

  const NavItems: seq<NavItem> := [
    NavItem("Dashboard", "/dashboard"),
    NavItem("Create Post", "/create"),
    NavItem("Approve Posts", "/approve"),
    NavItem("SEO Keywords", "/keywords"),
    NavItem("Settings", "/settings")
  ]

  /** The page the dashboard starts on. */
  const InitialPage := "Dashboard"

  /** The title of the page the Dashboard view's "Create New Post" button opens. */
  const CreatePostPage := "Create Post"

  /** Whether some sidebar button sets `activePage` to `page`. */
  predicate IsNavTitle(page: string) {
    exists i :: 0 <= i < |NavItems| && NavItems[i].title == page
  }

  /** What the main pane renders; `Null` is the `default: return null` branch. */
  datatype View =
    | LoginForm
    | SignupForm
    | DashboardHome
    | CreatePost
    | ApprovePosts
    | Keywords
    | SettingsPane
    | Null

  /** The nav title that leads to a section view, if the view is a section. */
  function SectionTitle(v: View): Option<string> {
    match v
    case DashboardHome => Some("Dashboard")
    case CreatePost => Some("Create Post")
    case ApprovePosts => Some("Approve Posts")
    case Keywords => Some("SEO Keywords")
    case SettingsPane => Some("Settings")
    case _ => None
  }

  /** `renderPageContent`: signed out, the login or signup form depending on
      `isLoginFormVisible`; signed in, the section named by `activePage`.
      Signed out, the page is ignored; signed in, the form flag is ignored; a
      signed-in pane is blank exactly when the page is no sidebar title, and
      otherwise it is the section that title leads to. */
  function SelectView(isAuthenticated: bool, isLoginFormVisible: bool, activePage: string): (v: View)
    ensures !isAuthenticated ==> v == (if isLoginFormVisible then LoginForm else SignupForm)
    ensures isAuthenticated ==> (v == Null <==> !IsNavTitle(activePage))
    ensures isAuthenticated && IsNavTitle(activePage) ==> SectionTitle(v) == Some(activePage)
  {
    if !isAuthenticated then
      if isLoginFormVisible then LoginForm else SignupForm
    else
      var v := match activePage
        case "Dashboard" => DashboardHome
        case "Create Post" => CreatePost
        case "Approve Posts" => ApprovePosts
        case "SEO Keywords" => Keywords
        case "Settings" => SettingsPane
        case _ => Null;
      assert NavItems[0].title == "Dashboard" && NavItems[1].title == "Create Post";
      assert NavItems[2].title == "Approve Posts" && NavItems[3].title == "SEO Keywords";
      assert NavItems[4].title == "Settings";
      v
  }

  /** Signed in, the pane does not depend on which auth form was last shown. */
  lemma SignedInIgnoresFormFlag(activePage: string)
    ensures SelectView(true, true, activePage) == SelectView(true, false, activePage)
  {
  }

  /** Signed out, the pane does not depend on the selected page. */
  lemma SignedOutIgnoresPage(isLoginFormVisible: bool, p: string, q: string)
    ensures SelectView(false, isLoginFormVisible, p) == SelectView(false, isLoginFormVisible, q)
  {
  }
}
