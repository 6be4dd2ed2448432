/** The application shell: whether the user is logged in, the last login error, which
    page is open, and the list of saved entries. A pure transition function `Step`
    specifies each handler; the class `App` holds the state and its methods carry out
    the handlers, each proved to move the state as `Step` says. */
module App {
  import opened Weighment
  import Auth
  import Form

  datatype Page = EntryPage | ViewerPage

  /** What the component renders. */
  datatype Screen = LoginScreen(error: string) | EntryScreen | ViewerScreen(entries: seq<EntryData>)

  datatype AppState = AppState(isLoggedIn: bool, loginError: string, currentPage: Page, entries: seq<EntryData>)

  /** The user's actions: submitting the login form, saving an entry, clicking a tab. */
  datatype Action = Login(username: string, password: string) | SaveEntry(entry: EntryData) | ShowPage(page: Page)

  const InvalidLogin: string := "Invalid username or password"

  /** The state before any action. */
  const Initial: AppState := AppState(false, "", EntryPage, [])

  /** The effect of one handler. */
  function Step(s: AppState, a: Action): (t: AppState)
    ensures s.isLoggedIn ==> t.isLoggedIn
    ensures s.entries <= t.entries
  {
    match a
    case Login(u, p) =>
      if Auth.ValidateCredentials(u, p) then s.(isLoggedIn := true, loginError := "")
      else s.(loginError := InvalidLogin)
    case SaveEntry(e) => s.(entries := s.entries + [e])
    case ShowPage(page) => s.(currentPage := page)
  }

  /** The page the component shows for a state. */
  function Render(s: AppState): (r: Screen)
    ensures !s.isLoggedIn ==> r == LoginScreen(s.loginError)
    ensures s.isLoggedIn && s.currentPage == EntryPage ==> r == EntryScreen
    ensures s.isLoggedIn && s.currentPage == ViewerPage ==> r == ViewerScreen(s.entries)
  {
    if !s.isLoggedIn then LoginScreen(s.loginError)
    else if s.currentPage == EntryPage then EntryScreen
    else ViewerScreen(s.entries)
  }

  /** The actions the rendered screen offers: the login form when logged out, the entry
      form on the entry page, and the two tabs whenever logged in. */
  predicate Enabled(s: AppState, a: Action) {
    match a
    case Login(_, _) => Render(s).LoginScreen?
    case SaveEntry(_) => Render(s) == EntryScreen
    case ShowPage(_) => s.isLoggedIn
  }

  /** The state after a sequence of actions. */
  function Run(s: AppState, actions: seq<Action>): AppState
    decreases |actions|
  {
    if actions == [] then s else Run(Step(s, actions[0]), actions[1..])
  }

  /** Every action of the sequence is offered by the screen it is taken on. */
  predicate EnabledRun(s: AppState, actions: seq<Action>)
    decreases |actions|
  {
    actions == [] || (Enabled(s, actions[0]) && EnabledRun(Step(s, actions[0]), actions[1..]))
  }

  /** The entries saved by a sequence of actions, in order. */
  function Saved(actions: seq<Action>): seq<EntryData>
    decreases |actions|
  {
    if actions == [] then []
    else (if actions[0].SaveEntry? then [actions[0].entry] else []) + Saved(actions[1..])
  }

  /** No sequence of actions logs the user out. */
  lemma {:induction false} RunNeverLogsOut(s: AppState, actions: seq<Action>)
    requires s.isLoggedIn
    ensures Run(s, actions).isLoggedIn
    decreases |actions|
  {
    if actions != [] {
      RunNeverLogsOut(Step(s, actions[0]), actions[1..]);
    }
  }

  /** The entry list only grows, by the saved entries appended at its end in order. */
  lemma {:induction false} RunAppendsSaved(s: AppState, actions: seq<Action>)
    ensures Run(s, actions).entries == s.entries + Saved(actions)
    decreases |actions|
  {
    if actions != [] {
      RunAppendsSaved(Step(s, actions[0]), actions[1..]);
    }
  }

  /** Along the runs the screens allow from the start: entries exist only once logged in,
      and a logged-in user never sees a login error. */
  lemma {:induction false} EnabledRunInvariant(s: AppState, actions: seq<Action>)
    requires s.entries != [] ==> s.isLoggedIn
    requires s.isLoggedIn ==> s.loginError == ""
    requires EnabledRun(s, actions)
    ensures Run(s, actions).entries != [] ==> Run(s, actions).isLoggedIn
    ensures Run(s, actions).isLoggedIn ==> Run(s, actions).loginError == ""
    decreases |actions|
  {
    if actions != [] {
      EnabledRunInvariant(Step(s, actions[0]), actions[1..]);
    }
  }

  /** A valid login from the start opens the entry page with no entries. */
  lemma LoginFromStart()
    ensures Render(Initial) == LoginScreen("")
    ensures Run(Initial, [Login("srilaxmi.krishna", "9100949909")]) == AppState(true, "", EntryPage, [])
    ensures Render(Run(Initial, [Login("srilaxmi.krishna", "9100949909")])) == EntryScreen
  {
    Auth.ListedUsersAccepted();
    var t := Step(Initial, Login("srilaxmi.krishna", "9100949909"));
    assert [Login("srilaxmi.krishna", "9100949909")][1..] == [];
  }

  /** The shell and the entry form it renders. The form's state belongs to the entry page
      component, which exists only while the entry page is shown: leaving the page discards
      the form and coming back starts a blank one. */
  class App {
    var isLoggedIn: bool
    var loginError: string
    var currentPage: Page
    var entries: seq<EntryData>
    var form: Form.EntryForm

    function State(): AppState
      reads this
    {
      AppState(isLoggedIn, loginError, currentPage, entries)
    }

    /** While logged out or on the viewer page no entry page exists, so there is no form
        to hold a half-filled record. */
    predicate FormUnmountedBlank()
      reads this, form
    {
      !isLoggedIn || currentPage == ViewerPage ==> form.IsBlank()
    }

    /** Not logged in, no error, the entry page selected with a blank form, no entries. */
    constructor ()
      ensures State() == Initial
      ensures fresh(form) && form.IsBlank()
      ensures FormUnmountedBlank()
    {
      isLoggedIn := false;
      loginError := "";
      currentPage := EntryPage;
      entries := [];
      form := new Form.EntryForm();
    }

    method HandleLogin(username: string, password: string)
      modifies this
      ensures State() == Step(old(State()), Login(username, password))
      ensures Auth.ValidateCredentials(username, password) ==> isLoggedIn && loginError == ""
      ensures !Auth.ValidateCredentials(username, password) ==>
        isLoggedIn == old(isLoggedIn) && loginError == InvalidLogin
      ensures currentPage == old(currentPage) && entries == old(entries) && form == old(form)
      ensures old(FormUnmountedBlank()) ==> FormUnmountedBlank()
    {
      if Auth.ValidateCredentials(username, password) {
        isLoggedIn := true;
        loginError := "";
      } else {
        loginError := InvalidLogin;
      }
    }

    method HandleSaveEntry(entry: EntryData)
      modifies this
      ensures State() == Step(old(State()), SaveEntry(entry))
      ensures entries == old(entries) + [entry]
      ensures isLoggedIn == old(isLoggedIn) && loginError == old(loginError) && currentPage == old(currentPage)
      ensures form == old(form)
      ensures old(FormUnmountedBlank()) ==> FormUnmountedBlank()
    {
      entries := entries + [entry];
    }

    /** The two navigation tabs. Clicking the tab of the page already shown changes nothing;
        switching pages discards the entry form, so the form is blank afterwards. */
    method SetCurrentPage(page: Page)
      modifies this, form
      ensures State() == Step(old(State()), ShowPage(page))
      ensures currentPage == page
      ensures isLoggedIn == old(isLoggedIn) && loginError == old(loginError) && entries == old(entries)
      ensures form == old(form)
      ensures page == old(currentPage) ==>
        form.formData == old(form.formData) && form.showCustomVillage == old(form.showCustomVillage)
        && form.customVillage == old(form.customVillage)
      ensures page != old(currentPage) ==> form.IsBlank()
      ensures old(FormUnmountedBlank()) ==> FormUnmountedBlank()
    {
      if page != currentPage {
        form.Reset();
      }
      currentPage := page;
    }

    /** The entry form's submit, wired to `HandleSaveEntry` as its save callback: the form's
        record is appended as it stands and the form is cleared. */
    method SubmitEntryForm()
      modifies this, form
      ensures State() == Step(old(State()), SaveEntry(old(form.formData)))
      ensures form == old(form) && form.IsBlank()
      ensures FormUnmountedBlank()
    {
      var saved := form.Submit();
      HandleSaveEntry(saved);
    }
  }

  /** Half-filling the form, opening the viewer and coming back to the entry page finds the
      form blank again. */
  method PageSwitchDiscardsFormExample() returns (village: string, vehicleNumber: string)
    ensures village == "" && vehicleNumber == ""
  {
    var app := new App();
    app.HandleLogin("srilaxmi.vasu", "9989143166");
    app.form.SelectVillage("Rampur");
    app.form.EditVehicleNumber("ap09");
    app.SetCurrentPage(ViewerPage);
    app.SetCurrentPage(EntryPage);
    village, vehicleNumber := app.form.formData.village, app.form.formData.vehicleNumber;
  }
}
