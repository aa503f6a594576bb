/** The state of the `DashboardLayout` component of
    components/dashboard-layout.tsx: the session (who is signed in, mirrored
    in browser storage), the selected page, the create-post form and its
    popups, and the post statistics. Each handler and effect is a transition
    function on the value `Layout`; the class `DashboardLayout` holds the same
    state in fields and its methods are proved to perform those transitions. */
module Dashboard {
  import opened Outcomes
  import opened BrowserStorage
  import opened Views

  /** The create-post form (`FormData`). `publish_date` is the local-time text
      of a datetime-local input. */
  datatype PostForm = PostForm(title: string, keywords: string, content: string, publish_date: string)

  const BlankPostForm := PostForm("", "", "", "")

  /** The `id` of the input whose `onChange` fired. */
  datatype PostField = Title | Keywords | Content | PublishDate

  /** The post statistics shown on the Dashboard view (`DashboardData`). */
  datatype DashboardData = DashboardData(published_posts: int, scheduled_posts: int)

  const ZeroStats := DashboardData(0, 0)

  /** The JSON body of a successful login response. */
  datatype LoginReply = LoginReply(token: string, username: string, email: string, profile_pic: string)

  /** A file chosen in the signup form's picture input. */
  datatype Picture = Picture(name: string)

  /** The signup form's own fields; `profilePic` is null until a file is chosen. */
  datatype SignupFields = SignupFields(username: string, email: string, password: string, profilePic: Option<Picture>)

  /** A network call the component issues, with what it sends. `bearer` is the
      `getItem('accesstoken')` result placed in the Authorization header
      (null becomes the text "Bearer null"). */
  datatype Request =
    | LoginRequest(email_or_username: string, password: string)
    | SignupRequest(username: string, email: string, password: string, profile_pic: Picture)
    | GenerateBlogRequest(body: PostForm, bearer: Option<string>)
    | PostStatsRequest(bearer: Option<string>)

  /** The session slots and browser storage, which only the session
      handlers and the restore effect change. */
  datatype Session = Session(isAuthenticated: bool, isLoginFormVisible: bool,
                             username: string, email: string, profilepic: string, storage: Storage)

  /** The create-post form and its two popups. */
  datatype PostPane = PostPane(formData: PostForm, popupVisible: bool, errorPopupVisible: bool)

  /** The statistics slots. */
  datatype Stats = Stats(data: DashboardData, loading: bool, error: Option<string>)

  /** All state of one mounted `DashboardLayout`, with the log of network
      calls issued so far. */
  datatype Layout = Layout(activePage: string, session: Session, post: PostPane, stats: Stats,
                           requests: seq<Request>)

  /** The session every logout ends in. */
  const SignedOut := Session(false, true, "", "", "", map[])

  /** The `useState` initial values; storage is whatever the browser kept. */
  function Initial(persisted: Storage): Layout {
    Layout(InitialPage, Session(false, true, "", "", "", persisted),
           PostPane(BlankPostForm, false, false), Stats(ZeroStats, true, None), [])
  }

  /** The stored access token, as `getItem` returns it. */
  function Token(s: Layout): Option<string> {
    GetItem(s.session.storage, AccessTokenKey)
  }

  /** The mounted component: the first render is followed by both effects in
      declaration order, the restore effect and then the stats effect, which
      reads the token and issues its one call with it. */
  function Mounted(persisted: Storage): Layout {
    IssueStats(Restore(Initial(persisted)))
  }

  /** `{ ...prevFormData, [id]: value }`. */
  function WithField(f: PostForm, field: PostField, value: string): PostForm {
    match field
    case Title => f.(title := value)
    case Keywords => f.(keywords := value)
    case Content => f.(content := value)
    case PublishDate => f.(publish_date := value)
  }

  /** `handleChange`. */
  function Edit(s: Layout, field: PostField, value: string): Layout {
    s.(post := s.post.(formData := WithField(s.post.formData, field, value)))
  }

  /** The session after a login response was accepted: the three profile
      slots, the four storage keys (written one at a time, token first),
      signed in, login form hidden. */
  function AcceptLogin(ss: Session, body: LoginReply): Session {
    ss.(username := body.username, email := body.email, profilepic := body.profile_pic,
        storage := ss.storage[AccessTokenKey := body.token][UsernameKey := body.username]
                             [EmailKey := body.email][ProfilePicKey := body.profile_pic],
        isAuthenticated := true, isLoginFormVisible := false)
  }

  /** `handleLogin(email, password)`: posts the credentials; any failure is
      only logged to the console. */
  function Login(s: Layout, email: string, password: string, reply: Reply<LoginReply>): Layout {
    var sent := s.(requests := s.requests + [LoginRequest(email, password)]);
    if reply.Ok? then sent.(session := AcceptLogin(s.session, reply.body)) else sent
  }

  /** `handleLogout`. */
  function Logout(s: Layout): Layout {
    s.(session := s.session.(username := "", email := "", profilepic := "", storage := map[],
                             isAuthenticated := false, isLoginFormVisible := true))
  }

  /** `handleSignup`: posts the multipart form; only an ok response goes on to
      `handleLogin` with the same email and password. */
  function Signup(s: Layout, username: string, email: string, password: string, pic: Picture,
                  signupReply: Reply<()>, loginReply: Reply<LoginReply>): Layout
  {
    var sent := s.(requests := s.requests + [SignupRequest(username, email, password, pic)]);
    if signupReply.Ok? then Login(sent, email, password, loginReply) else sent
  }

  /** The `SignupForm.handleSubmit` guard: the picture to sign up with, or
      none when no file was chosen (then only a console error is logged). */
  function SignupGuard(f: SignupFields): (pic: Option<Picture>)
    ensures pic.Some? <==> f.profilePic.Some?
    ensures pic.Some? ==> pic == f.profilePic
  {
    match f.profilePic
    case Some(p) => Some(p)
    case None => None
  }

  /** Submitting the signup form. */
  function SubmitSignupForm(s: Layout, f: SignupFields, signupReply: Reply<()>,
                            loginReply: Reply<LoginReply>): Layout
  {
    match SignupGuard(f)
    case None => s
    case Some(pic) => Signup(s, f.username, f.email, f.password, pic, signupReply, loginReply)
  }

  /** `dataToSend`: a copy of the form whose `publish_date`, when non-empty, is
      replaced by `toIso` of it (`new Date(d).toISOString()`). Every other
      field goes out verbatim, and an empty date goes out empty. */
  function ToSend(f: PostForm, toIso: string -> string): (d: PostForm)
    ensures d.title == f.title && d.keywords == f.keywords && d.content == f.content
    ensures f.publish_date == "" ==> d.publish_date == ""
    ensures f.publish_date != "" ==> d.publish_date == toIso(f.publish_date)
  {
    if f.publish_date != "" then f.(publish_date := toIso(f.publish_date)) else f
  }

  /** `handleSubmit` of the create-post form: sends the converted copy with
      the stored token; either way the form is cleared, then the success or
      the error popup is shown. */
  function SubmitPost(s: Layout, toIso: string -> string, reply: Reply<()>): Layout {
    var sent := s.(requests := s.requests + [GenerateBlogRequest(ToSend(s.post.formData, toIso), Token(s))]);
    if reply.Ok? then sent.(post := s.post.(formData := BlankPostForm, popupVisible := true))
    else sent.(post := s.post.(formData := BlankPostForm, errorPopupVisible := true))
  }

  /** The message `setError` records for a failed stats load. */
  const StatsNotOkMessage := "Network response was not ok"

  /** The stats effect (`fetchData`, dependencies `[]`) up to its awaited
      `fetch`: the stored token is read and the call goes out. It runs once,
      on mount. */
  function IssueStats(s: Layout): Layout {
    s.(requests := s.requests + [PostStatsRequest(Token(s))])
  }

  /** The rest of `fetchData` once the response is in: the body replaces
      `data` wholesale on success, the error message is recorded on failure,
      and `finally` sets `loading` false on every path. */
  function SettleStats(s: Layout, reply: Reply<DashboardData>): Layout {
    var st := match reply
      case Ok(d) => s.stats.(data := d, loading := false)
      case NotOk(_) => s.stats.(error := Some(StatsNotOkMessage), loading := false)
      case Thrown(m) => s.stats.(error := Some(m), loading := false);
    s.(stats := st)
  }

  /** The restore effect on the session: signed in with the stored profile
      (missing entries read as "") when a truthy token is stored, otherwise
      signed out with an empty profile. Storage is only read, and the login
      form flag is left alone. */
  function RestoreSession(ss: Session): (r: Session)
    ensures r.isAuthenticated == HasToken(ss.storage)
    ensures r.storage == ss.storage && r.isLoginFormVisible == ss.isLoginFormVisible
  {
    if HasToken(ss.storage) then
      ss.(isAuthenticated := true, username := GetOrEmpty(ss.storage, UsernameKey),
          email := GetOrEmpty(ss.storage, EmailKey), profilepic := GetOrEmpty(ss.storage, ProfilePicKey))
    else
      ss.(isAuthenticated := false, username := "", email := "", profilepic := "")
  }

  /** The restore effect, run after every render. */
  function Restore(s: Layout): Layout {
    s.(session := RestoreSession(s.session))
  }

  /** A sidebar button (`setActivePage(item.title)`). */
  function Navigate(s: Layout, item: nat): Layout
    requires item < |NavItems|
  {
    s.(activePage := NavItems[item].title)
  }

  /** Everything that can happen to a mounted dashboard, one event at a time.
      `StatsLoaded` is the response to the call issued on mount. */
  datatype Event =
    | Render
    | StatsLoaded(statsReply: Reply<DashboardData>)
    | NavClicked(item: nat)
    | CreateNewPostClicked
    | ShowSignupClicked
    | ShowLoginClicked
    | LoginSubmitted(loginEmail: string, loginPassword: string, loginReply: Reply<LoginReply>)
    | SignupSubmitted(fields: SignupFields, signupReply: Reply<()>, afterSignupLoginReply: Reply<LoginReply>)
    | LogoutClicked
    | FieldChanged(field: PostField, value: string)
    | PostSubmitted(toIso: string -> string, postReply: Reply<()>)
    | PopupTimerFired
    | ErrorPopupTimerFired

  /** Only rendered sidebar buttons can be clicked. */
  predicate WellFormed(e: Event) {
    e.NavClicked? ==> e.item < |NavItems|
  }

  predicate AllWellFormed(evs: seq<Event>) {
    forall i :: 0 <= i < |evs| ==> WellFormed(evs[i])
  }

  function Step(s: Layout, e: Event): Layout
    requires WellFormed(e)
  {
    match e
    case Render => Restore(s)
    case StatsLoaded(r) => SettleStats(s, r)
    case NavClicked(i) => Navigate(s, i)
    case CreateNewPostClicked => s.(activePage := CreatePostPage)
    case ShowSignupClicked => s.(session := s.session.(isLoginFormVisible := false))
    case ShowLoginClicked => s.(session := s.session.(isLoginFormVisible := true))
    case LoginSubmitted(em, pw, r) => Login(s, em, pw, r)
    case SignupSubmitted(f, r1, r2) => SubmitSignupForm(s, f, r1, r2)
    case LogoutClicked => Logout(s)
    case FieldChanged(field, v) => Edit(s, field, v)
    case PostSubmitted(toIso, r) => SubmitPost(s, toIso, r)
    case PopupTimerFired => s.(post := s.post.(popupVisible := false))
    case ErrorPopupTimerFired => s.(post := s.post.(errorPopupVisible := false))
  }

  function Run(s: Layout, evs: seq<Event>): Layout
    requires AllWellFormed(evs)
    decreases |evs|
  {
    if evs == [] then s else Run(Step(s, evs[0]), evs[1..])
  }

  /** The stats response can only arrive while its call is pending. */
  predicate Enabled(s: Layout, e: Event) {
    e.StatsLoaded? ==> s.stats.loading
  }

  /** A sequence of events each of which can happen when it does. */
  predicate Feasible(s: Layout, evs: seq<Event>)
    requires AllWellFormed(evs)
    decreases |evs|
  {
    evs == [] || (Enabled(s, evs[0]) && Feasible(Step(s, evs[0]), evs[1..]))
  }

  /** The number of stats responses among the events. */
  function StatsReplies(evs: seq<Event>): nat
    decreases |evs|
  {
    if evs == [] then 0 else (if evs[0].StatsLoaded? then 1 else 0) + StatsReplies(evs[1..])
  }

  /** The component itself: the `useState` slots and browser storage as
      fields, each handler and effect as a method. */
  class DashboardLayout {
    var activePage: string
    var username: string
    var email: string
    var profilepic: string
    var popupVisible: bool
    var isLoginFormVisible: bool
    var isAuthenticated: bool
    var formData: PostForm
    var data: DashboardData
    var loading: bool
    var error: Option<string>
    var errorPopupVisible: bool
    var storage: Storage
    var requests: seq<Request>

    function State(): Layout
      reads this
    {
      Layout(activePage,
             Session(isAuthenticated, isLoginFormVisible, username, email, profilepic, storage),
             PostPane(formData, popupVisible, errorPopupVisible),
             Stats(data, loading, error),
             requests)
    }

    /** Mounting: the `useState` initial values, then the first render's
        effects. */
    constructor (persisted: Storage)
      ensures State() == Mounted(persisted)
    {
      activePage := InitialPage;
      username := "";
      email := "";
      profilepic := "";
      popupVisible := false;
      isLoginFormVisible := true;
      isAuthenticated := false;
      formData := BlankPostForm;
      data := ZeroStats;
      loading := true;
      error := None;
      errorPopupVisible := false;
      storage := persisted;
      requests := [];
      new;
      RestoreFromStorage();
      StartFetchStats();
    }

    // The `useState` setters, one slot each.

    method SetActivePage(v: string)
      modifies this
      ensures State() == old(State()).(activePage := v)
    {
      activePage := v;
    }

    method SetUsername(v: string)
      modifies this
      ensures State() == old(State()).(session := old(State()).session.(username := v))
    {
      username := v;
    }

    method SetEmail(v: string)
      modifies this
      ensures State() == old(State()).(session := old(State()).session.(email := v))
    {
      email := v;
    }

    method SetProfilepic(v: string)
      modifies this
      ensures State() == old(State()).(session := old(State()).session.(profilepic := v))
    {
      profilepic := v;
    }

    method SetPopupVisible(v: bool)
      modifies this
      ensures State() == old(State()).(post := old(State()).post.(popupVisible := v))
    {
      popupVisible := v;
    }

    method SetIsLoginFormVisible(v: bool)
      modifies this
      ensures State() == old(State()).(session := old(State()).session.(isLoginFormVisible := v))
    {
      isLoginFormVisible := v;
    }

    method SetIsAuthenticated(v: bool)
      modifies this
      ensures State() == old(State()).(session := old(State()).session.(isAuthenticated := v))
    {
      isAuthenticated := v;
    }

    method SetFormData(v: PostForm)
      modifies this
      ensures State() == old(State()).(post := old(State()).post.(formData := v))
    {
      formData := v;
    }

    method SetData(v: DashboardData)
      modifies this
      ensures State() == old(State()).(stats := old(State()).stats.(data := v))
    {
      data := v;
    }

    method SetLoading(v: bool)
      modifies this
      ensures State() == old(State()).(stats := old(State()).stats.(loading := v))
    {
      loading := v;
    }

    method SetError(v: string)
      modifies this
      ensures State() == old(State()).(stats := old(State()).stats.(error := Some(v)))
    {
      error := Some(v);
    }

    method SetErrorPopupVisible(v: bool)
      modifies this
      ensures State() == old(State()).(post := old(State()).post.(errorPopupVisible := v))
    {
      errorPopupVisible := v;
    }

    /** `localStorage.setItem(key, value)`. */
    method SetItem(key: string, value: string)
      modifies this
      ensures State() == old(State()).(session := old(State()).session.(storage := old(storage)[key := value]))
    {
      storage := storage[key := value];
    }

    /** `localStorage.clear()`. */
    method ClearStorage()
      modifies this
      ensures State() == old(State()).(session := old(State()).session.(storage := map[]))
    {
      storage := map[];
    }

    /** Issuing a `fetch`: the call is logged whatever its outcome. */
    method Issue(r: Request)
      modifies this
      ensures State() == old(State()).(requests := old(requests) + [r])
    {
      requests := requests + [r];
    }

    /** `renderPageContent`. */
    function RenderPageContent(): View
      reads this
    {
      SelectView(isAuthenticated, isLoginFormVisible, activePage)
    }

    method HandleChange(field: PostField, value: string)
      modifies this
      ensures State() == Edit(old(State()), field, value)
    {
      SetFormData(WithField(formData, field, value));
    }

    method HandleLogin(email: string, password: string, reply: Reply<LoginReply>)
      modifies this
      ensures State() == Login(old(State()), email, password, reply)
    {
      Issue(LoginRequest(email, password));
      if reply.Ok? {
        var body := reply.body;
        SetUsername(body.username);
        SetEmail(body.email);
        SetProfilepic(body.profile_pic);
        SetItem(AccessTokenKey, body.token);
        SetItem(UsernameKey, body.username);
        SetItem(EmailKey, body.email);
        SetItem(ProfilePicKey, body.profile_pic);
        SetIsAuthenticated(true);
        SetIsLoginFormVisible(false);
      }
    }

    method HandleLogout()
      modifies this
      ensures State() == Logout(old(State()))
    {
      SetUsername("");
      SetEmail("");
      SetProfilepic("");
      ClearStorage();
      SetIsAuthenticated(false);
      SetIsLoginFormVisible(true);
    }

    method HandleSignup(username: string, email: string, password: string, pic: Picture,
                        signupReply: Reply<()>, loginReply: Reply<LoginReply>)
      modifies this
      ensures State() == Signup(old(State()), username, email, password, pic, signupReply, loginReply)
    {
      Issue(SignupRequest(username, email, password, pic));
      if signupReply.Ok? {
        HandleLogin(email, password, loginReply);
      }
    }

    /** The signup form's submit: calls `HandleSignup` only with a picture. */
    method SubmitSignup(f: SignupFields, signupReply: Reply<()>, loginReply: Reply<LoginReply>)
      modifies this
      ensures State() == SubmitSignupForm(old(State()), f, signupReply, loginReply)
    {
      var pic := SignupGuard(f);
      if pic.Some? {
        HandleSignup(f.username, f.email, f.password, pic.value, signupReply, loginReply);
      }
    }

    method HandleSubmit(toIso: string -> string, reply: Reply<()>)
      modifies this
      ensures State() == SubmitPost(old(State()), toIso, reply)
    {
      var dataToSend := formData;
      if dataToSend.publish_date != "" {
        dataToSend := dataToSend.(publish_date := toIso(dataToSend.publish_date));
      }
      var token := GetItem(storage, AccessTokenKey);
      Issue(GenerateBlogRequest(dataToSend, token));
      if reply.Ok? {
        SetFormData(BlankPostForm);
        SetPopupVisible(true);
      } else {
        SetFormData(BlankPostForm);
        SetErrorPopupVisible(true);
      }
    }

    /** The restore effect. */
    method RestoreFromStorage()
      modifies this
      ensures State() == Restore(old(State()))
    {
      var token := GetItem(storage, AccessTokenKey);
      var un := GetOrEmpty(storage, UsernameKey);
      var em := GetOrEmpty(storage, EmailKey);
      var pp := GetOrEmpty(storage, ProfilePicKey);
      if Truthy(token) {
        SetIsAuthenticated(true);
        SetUsername(un);
        SetEmail(em);
        SetProfilepic(pp);
      } else {
        SetIsAuthenticated(false);
        SetUsername("");
        SetEmail("");
        SetProfilepic("");
      }
    }

    /** The stats effect on mount, up to the awaited `fetch`. */
    method StartFetchStats()
      modifies this
      ensures State() == IssueStats(old(State()))
    {
      var token := GetItem(storage, AccessTokenKey);
      Issue(PostStatsRequest(token));
    }

    /** The stats effect once its response is in. */
    method FinishFetchStats(reply: Reply<DashboardData>)
      modifies this
      ensures State() == SettleStats(old(State()), reply)
    {
      match reply {
        case Ok(result) => SetData(result);
        case NotOk(_) => SetError(StatsNotOkMessage);
        case Thrown(m) => SetError(m);
      }
      SetLoading(false);
    }

    /** Any event, dispatched to its handler. */
    method Handle(e: Event)
      requires WellFormed(e)
      modifies this
      ensures State() == Step(old(State()), e)
    {
      match e {
        case Render => RestoreFromStorage();
        case StatsLoaded(r) => FinishFetchStats(r);
        case NavClicked(i) => SetActivePage(NavItems[i].title);
        case CreateNewPostClicked => SetActivePage(CreatePostPage);
        case ShowSignupClicked => SetIsLoginFormVisible(false);
        case ShowLoginClicked => SetIsLoginFormVisible(true);
        case LoginSubmitted(em, pw, r) => HandleLogin(em, pw, r);
        case SignupSubmitted(f, r1, r2) => SubmitSignup(f, r1, r2);
        case LogoutClicked => HandleLogout();
        case FieldChanged(field, v) => HandleChange(field, v);
        case PostSubmitted(toIso, r) => HandleSubmit(toIso, r);
        case PopupTimerFired => SetPopupVisible(false);
        case ErrorPopupTimerFired => SetErrorPopupVisible(false);
      }
    }
  }
}
