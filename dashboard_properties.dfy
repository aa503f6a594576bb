/** What the dashboard's handlers and effects guarantee, stated over the
    transition functions of module `Dashboard`. */
module DashboardProperties {
  import opened Outcomes
  import opened BrowserStorage
  import opened Views
  import opened Dashboard

  // ---- Login, signup, logout ----

  /** A successful login copies the reply's profile into the session and all
      four values into storage, signs in and hides the login form; besides
      the logged request nothing outside the session changes. */
  lemma LoginSuccess(s: Layout, email: string, password: string, body: LoginReply)
    ensures var r := Login(s, email, password, Ok(body)); var ss := r.session;
      && ss.username == body.username && ss.email == body.email && ss.profilepic == body.profile_pic
      && ss.storage.Keys == s.session.storage.Keys + {AccessTokenKey, UsernameKey, EmailKey, ProfilePicKey}
      && ss.storage[AccessTokenKey] == body.token && ss.storage[UsernameKey] == body.username
      && ss.storage[EmailKey] == body.email && ss.storage[ProfilePicKey] == body.profile_pic
      && (forall k :: k in s.session.storage && k !in {AccessTokenKey, UsernameKey, EmailKey, ProfilePicKey}
            ==> ss.storage[k] == s.session.storage[k])
      && ss.isAuthenticated && !ss.isLoginFormVisible
      && r.requests == s.requests + [LoginRequest(email, password)]
      && r.(session := s.session, requests := s.requests) == s
  {
  }

  /** A non-ok response or a thrown error is only logged: the state and
      storage stay as they were. */
  lemma LoginFailureChangesNothing(s: Layout, email: string, password: string, reply: Reply<LoginReply>)
    requires !reply.Ok?
    ensures Login(s, email, password, reply) == s.(requests := s.requests + [LoginRequest(email, password)])
  {
  }

  /** Logout reaches the same session whatever the session was, and touches
      nothing else. */
  lemma LogoutIsConstant(s: Layout)
    ensures Logout(s).session == SignedOut
    ensures Logout(s).(session := s.session) == s
  {
  }

  /** The signup form without a picture makes no call and changes nothing. */
  lemma SignupWithoutPictureIsLocal(s: Layout, f: SignupFields, signupReply: Reply<()>, loginReply: Reply<LoginReply>)
    requires f.profilePic.None?
    ensures SubmitSignupForm(s, f, signupReply, loginReply) == s
  {
  }

  /** With a picture, signup is posted; only an ok response is followed by a
      login with the same email and password, and a failed signup changes
      nothing but the log. */
  lemma SignupThenLogin(s: Layout, f: SignupFields, signupReply: Reply<()>, loginReply: Reply<LoginReply>)
    requires f.profilePic.Some?
    ensures var sent := s.(requests := s.requests + [SignupRequest(f.username, f.email, f.password, f.profilePic.value)]);
      SubmitSignupForm(s, f, signupReply, loginReply)
        == if signupReply.Ok? then Login(sent, f.email, f.password, loginReply) else sent
    ensures signupReply.Ok? ==>
      SubmitSignupForm(s, f, signupReply, loginReply).requests
        == s.requests + [SignupRequest(f.username, f.email, f.password, f.profilePic.value),
                         LoginRequest(f.email, f.password)]
  {
  }

  // ---- The restore effect ----

  /** Restore only reads storage: the profile it yields depends on storage
      alone, and nothing outside the session changes. */
  lemma RestoreDependsOnlyOnStorage(s: Layout, t: Layout)
    requires s.session.storage == t.session.storage
    ensures var rs, rt := Restore(s).session, Restore(t).session;
      rs.isAuthenticated == rt.isAuthenticated && rs.username == rt.username
      && rs.email == rt.email && rs.profilepic == rt.profilepic
    ensures Restore(s).(session := s.session) == s
  {
  }

  /** With a truthy token the stored profile is loaded, each missing entry as "". */
  lemma RestoreWithToken(s: Layout)
    requires HasToken(s.session.storage)
    ensures var st, r := s.session.storage, Restore(s).session;
      r.isAuthenticated
      && r.username == (if UsernameKey in st then st[UsernameKey] else "")
      && r.email == (if EmailKey in st then st[EmailKey] else "")
      && r.profilepic == (if ProfilePicKey in st then st[ProfilePicKey] else "")
  {
  }

  /** Without one (no entry, or ""), the session is signed out and empty. */
  lemma RestoreWithoutToken(s: Layout)
    requires !HasToken(s.session.storage)
    ensures var r := Restore(s).session;
      !r.isAuthenticated && r.username == "" && r.email == "" && r.profilepic == ""
  {
  }

  /** Running the effect twice is running it once. */
  lemma RestoreIdempotent(s: Layout)
    ensures Restore(Restore(s)) == Restore(s)
  {
  }

  /** The state agrees with storage: the next render's restore changes nothing. */
  predicate InSync(s: Layout) {
    Restore(s) == s
  }

  lemma LogoutKeepsInSync(s: Layout)
    ensures InSync(Logout(s))
  {
  }

  lemma FailedLoginKeepsInSync(s: Layout, email: string, password: string, reply: Reply<LoginReply>)
    requires InSync(s) && !reply.Ok?
    ensures InSync(Login(s, email, password, reply))
  {
  }

  /** A login whose token is non-empty leaves state and storage in agreement. */
  lemma LoginKeepsInSync(s: Layout, email: string, password: string, body: LoginReply)
    requires body.token != ""
    ensures InSync(Login(s, email, password, Ok(body)))
  {
  }

  /** A login whose reply carries an empty token still signs in, and the
      next render's restore signs out again: "signed in" follows the stored
      token only once the restore effect has run. */
  lemma LoginWithEmptyTokenIsUndone(s: Layout, email: string, password: string, body: LoginReply)
    requires body.token == ""
    ensures Login(s, email, password, Ok(body)).session.isAuthenticated
    ensures !Restore(Login(s, email, password, Ok(body))).session.isAuthenticated
    ensures var r := Restore(Login(s, email, password, Ok(body)));
      SelectView(r.session.isAuthenticated, r.session.isLoginFormVisible, r.activePage) == SignupForm
  {
  }

  // ---- Create-post form ----

  /** `handleChange` sets exactly the input that changed. */
  lemma EditSetsOnlyItsField(s: Layout, field: PostField, value: string)
    ensures var f, g := s.post.formData, Edit(s, field, value).post.formData;
      (field == Title ==> g == f.(title := value))
      && (field == PostField.Keywords ==> g == f.(keywords := value))
      && (field == Content ==> g == f.(content := value))
      && (field == PublishDate ==> g == f.(publish_date := value))
    ensures Edit(s, field, value).(post := s.post.(formData := s.post.formData)) == s
  {
  }

  /** Submitting sends the converted copy with the stored token, then clears
      the form on both outcomes and raises the popup for the outcome. */
  lemma SubmitPostResetsForm(s: Layout, toIso: string -> string, reply: Reply<()>)
    ensures var r := SubmitPost(s, toIso, reply);
      r.post.formData == BlankPostForm
      && r.requests == s.requests + [GenerateBlogRequest(ToSend(s.post.formData, toIso), Token(s))]
      && (reply.Ok? ==> r.post.popupVisible && r.post.errorPopupVisible == s.post.errorPopupVisible)
      && (!reply.Ok? ==> r.post.errorPopupVisible && r.post.popupVisible == s.post.popupVisible)
      && r.(post := s.post, requests := s.requests) == s
  {
  }

  // ---- Stats ----

  /** Mounting restores the session from storage and issues exactly one call,
      the stats call, carrying the token storage held at mount; the counters
      start at zero and loading. */
  lemma MountIssuesStatsCall(persisted: Storage)
    ensures var m := Mounted(persisted);
      && m.requests == [PostStatsRequest(GetItem(persisted, AccessTokenKey))]
      && m.session == RestoreSession(Initial(persisted).session)
      && m.stats == Stats(ZeroStats, true, None)
      && m.activePage == InitialPage && m.post == PostPane(BlankPostForm, false, false)
  {
  }

  /** Loading ends on every path; success replaces the numbers wholesale,
      failure records a message and keeps them. The response issues no call
      and touches nothing but the statistics. */
  lemma StatsLoadSettles(s: Layout, reply: Reply<DashboardData>)
    ensures var r := SettleStats(s, reply).stats;
      !r.loading
      && (reply.Ok? ==> r.data == reply.body && r.error == s.stats.error)
      && (reply.NotOk? ==> r.data == s.stats.data && r.error == Some(StatsNotOkMessage))
      && (reply.Thrown? ==> r.data == s.stats.data && r.error == Some(reply.message))
    ensures SettleStats(s, reply).(stats := s.stats) == s
  {
  }

  /** A failed load leaves the initial zeros on screen. */
  lemma FailedLoadOnMountShowsZeros(persisted: Storage, reply: Reply<DashboardData>)
    requires !reply.Ok?
    ensures SettleStats(Mounted(persisted), reply).stats.data == ZeroStats
  {
  }

  // ---- Whole runs ----

  predicate OnNavPage(s: Layout) {
    IsNavTitle(s.activePage)
  }

  /** Only the sidebar and the "Create New Post" button move the page. */
  lemma OnlyNavigationMovesPage(s: Layout, e: Event)
    requires WellFormed(e) && !e.NavClicked? && !e.CreateNewPostClicked?
    ensures Step(s, e).activePage == s.activePage
  {
  }

  /** Every event keeps `activePage` a sidebar title. */
  lemma StepKeepsNavPage(s: Layout, e: Event)
    requires WellFormed(e) && OnNavPage(s)
    ensures OnNavPage(Step(s, e))
  {
    if e.NavClicked? {
      assert NavItems[e.item].title == Step(s, e).activePage;
    } else if e.CreateNewPostClicked? {
      assert NavItems[1].title == Step(s, e).activePage;
    } else {
      OnlyNavigationMovesPage(s, e);
    }
  }

  lemma {:induction false} RunKeepsNavPage(s: Layout, evs: seq<Event>)
    requires AllWellFormed(evs) && OnNavPage(s)
    ensures OnNavPage(Run(s, evs))
    decreases |evs|
  {
    if evs != [] {
      StepKeepsNavPage(s, evs[0]);
      RunKeepsNavPage(Step(s, evs[0]), evs[1..]);
    }
  }

  /** `activePage` starts on a sidebar title and stays on one, so the
      `default: return null` branch of `renderPageContent` is never taken. */
  lemma NeverBlank(persisted: Storage, evs: seq<Event>)
    requires AllWellFormed(evs)
    ensures var s := Run(Mounted(persisted), evs);
      SelectView(s.session.isAuthenticated, s.session.isLoginFormVisible, s.activePage) != Null
  {
    assert NavItems[0].title == InitialPage;
    RunKeepsNavPage(Mounted(persisted), evs);
  }

  /** The events whose handler calls `fetch`; the signup form only does so
      with a picture. */
  predicate IssuesCall(e: Event) {
    e.LoginSubmitted? || e.PostSubmitted?
    || (e.SignupSubmitted? && e.fields.profilePic.Some?)
  }

  /** Navigation, toggles, typing, logout, restore, the stats response and
      the popup timers issue no network call. */
  lemma LocalEventsIssueNoCall(s: Layout, e: Event)
    requires WellFormed(e) && !IssuesCall(e)
    ensures Step(s, e).requests == s.requests
  {
  }

  lemma LoginAppendsRequests(s: Layout, email: string, password: string, reply: Reply<LoginReply>)
    ensures s.requests < Login(s, email, password, reply).requests
  {
  }

  /** The other events add at least one call after those already issued. */
  lemma CallingEventsAppend(s: Layout, e: Event)
    requires WellFormed(e) && IssuesCall(e)
    ensures s.requests < Step(s, e).requests
  {
    match e
    case LoginSubmitted(em, pw, r) =>
      LoginAppendsRequests(s, em, pw, r);
    case SignupSubmitted(f, r1, r2) =>
      var sent := s.(requests := s.requests + [SignupRequest(f.username, f.email, f.password, f.profilePic.value)]);
      LoginAppendsRequests(sent, f.email, f.password, r2);
    case PostSubmitted(_, _) =>
  }

  /** Issued calls are never taken back: the request log only grows. */
  lemma {:induction false} RunOnlyAppendsRequests(s: Layout, evs: seq<Event>)
    requires AllWellFormed(evs)
    ensures s.requests <= Run(s, evs).requests
    decreases |evs|
  {
    if evs != [] {
      if IssuesCall(evs[0]) {
        CallingEventsAppend(s, evs[0]);
      } else {
        LocalEventsIssueNoCall(s, evs[0]);
      }
      RunOnlyAppendsRequests(Step(s, evs[0]), evs[1..]);
    }
  }

  /** None of the calls from index `from` on is a stats call. */
  predicate NoStatsCallFrom(rs: seq<Request>, from: nat) {
    forall i :: from <= i < |rs| ==> !rs[i].PostStatsRequest?
  }

  /** No event issues a stats call: that call belongs to the mount alone. */
  lemma StepIssuesNoStatsCall(s: Layout, e: Event)
    requires WellFormed(e)
    ensures NoStatsCallFrom(Step(s, e).requests, |s.requests|)
  {
  }

  lemma {:induction false} RunIssuesNoStatsCall(s: Layout, evs: seq<Event>)
    requires AllWellFormed(evs)
    ensures NoStatsCallFrom(Run(s, evs).requests, |s.requests|)
    decreases |evs|
  {
    if evs != [] {
      var t := Step(s, evs[0]);
      StepIssuesNoStatsCall(s, evs[0]);
      RunOnlyAppendsRequests(t, evs[1..]);
      RunIssuesNoStatsCall(t, evs[1..]);
      var rs := Run(s, evs).requests;
      forall i | |s.requests| <= i < |rs|
        ensures !rs[i].PostStatsRequest?
      {
        if i < |t.requests| {
          assert rs[i] == t.requests[i];
        }
      }
    }
  }

  /** Whatever happens after mount, the log holds exactly one stats call: the
      first one, with the token storage held at mount. A user who signs in
      later keeps the counters that call brought. */
  lemma OneStatsCallPerMount(persisted: Storage, evs: seq<Event>)
    requires AllWellFormed(evs)
    ensures var rs := Run(Mounted(persisted), evs).requests;
      && |rs| >= 1 && rs[0] == PostStatsRequest(GetItem(persisted, AccessTokenKey))
      && NoStatsCallFrom(rs, 1)
  {
    var m := Mounted(persisted);
    assert m.requests == [PostStatsRequest(GetItem(persisted, AccessTokenKey))];
    RunOnlyAppendsRequests(m, evs);
    RunIssuesNoStatsCall(m, evs);
  }

  /** Only the stats effect touches the statistics slots. */
  lemma OnlyStatsLoadTouchesStats(s: Layout, e: Event)
    requires WellFormed(e) && !e.StatsLoaded?
    ensures Step(s, e).stats == s.stats
  {
  }

  /** Once the stats have loaded, `loading` never comes back. */
  lemma {:induction false} LoadingStaysOff(s: Layout, evs: seq<Event>)
    requires AllWellFormed(evs) && !s.stats.loading
    ensures !Run(s, evs).stats.loading
    decreases |evs|
  {
    if evs != [] {
      if !evs[0].StatsLoaded? {
        OnlyStatsLoadTouchesStats(s, evs[0]);
      }
      LoadingStaysOff(Step(s, evs[0]), evs[1..]);
    }
  }

  /** In a feasible run the stats response arrives at most once, and only
      while loading; `loading` stays on exactly until it has arrived. */
  lemma {:induction false} StatsSettleOnce(s: Layout, evs: seq<Event>)
    requires AllWellFormed(evs) && Feasible(s, evs)
    ensures StatsReplies(evs) <= (if s.stats.loading then 1 else 0)
    ensures Run(s, evs).stats.loading == (s.stats.loading && StatsReplies(evs) == 0)
    decreases |evs|
  {
    if evs != [] {
      var t := Step(s, evs[0]);
      if evs[0].StatsLoaded? {
        StatsLoadSettles(s, evs[0].statsReply);
      } else {
        OnlyStatsLoadTouchesStats(s, evs[0]);
      }
      StatsSettleOnce(t, evs[1..]);
    }
  }

  /** After mount the single stats call is answered at most once, and the
      counters show as loading exactly until then. */
  lemma OneStatsReplyPerMount(persisted: Storage, evs: seq<Event>)
    requires AllWellFormed(evs) && Feasible(Mounted(persisted), evs)
    ensures StatsReplies(evs) <= 1
    ensures Run(Mounted(persisted), evs).stats.loading <==> StatsReplies(evs) == 0
  {
    StatsSettleOnce(Mounted(persisted), evs);
  }

  // ---- Scenario ----

  /** A freshly mounted dashboard whose login succeeds shows the Dashboard section. */
  lemma LoginShowsDashboard(persisted: Storage, email: string, password: string, body: LoginReply)
    ensures var s := Login(Mounted(persisted), email, password, Ok(body));
      SelectView(s.session.isAuthenticated, s.session.isLoginFormVisible, s.activePage) == DashboardHome
  {
    assert NavItems[0].title == InitialPage;
  }
}
