/**
 The application root: its in-memory state, the startup loader and one pure
 transition per event handler. Each handler is one atomic step; the store
 travels inside the state so that every handler states which keys it touches.
 */
module AppState {
  import opened Wrappers
  import opened Types
  import opened Storage
  import opened Catalog

  datatype AuthState = LoggedOut | Locked | LoggedIn

  /** Which of the two signed-out screens is shown. */
  datatype AuthScreen = LoginScreen | SignUpScreen

  /** What the results screen shows after a quiz. */
  datatype QuizResults = QuizResults(score: int, total: int, quizId: string)

  datatype App = App(
    auth: AuthState,
    authScreen: AuthScreen,
    email: string,
    screen: Screen,
    activeQuiz: Option<Quiz>,
    results: Option<QuizResults>,
    saved: Option<SavedQuizState>,
    history: seq<QuizAttempt>,
    profile: UserProfile,
    store: Store)

  const DefaultProfile: UserProfile := UserProfile("", "", "", "", "", "")

  /** The identities the simulated login and sign-up hand out. */
  const LoginEmail: string := "user@example.com"
  const SignUpEmail: string := "newuser@example.com"

  /** The state before the startup effect has run. */
  function Initial(store: Store): App {
    App(LoggedOut, LoginScreen, "", Home, None, None, None, [], DefaultProfile, store)
  }

  /** The snapshot a startup over `store` loads (absent or unparseable: none). */
  function StoredProgress(store: Store): Option<SavedQuizState> {
    if Classify(store, ProgressKey, ProgressKind) == Parsed then Some(store[ProgressKey].progress) else None
  }

  /** The history a startup over `store` loads (absent or unparseable: empty). */
  function StoredHistory(store: Store): seq<QuizAttempt> {
    if Classify(store, HistoryKey, HistoryKind) == Parsed then store[HistoryKey].attempts else []
  }

  /** The profile a startup over `store` loads (absent or unparseable: the default). */
  function StoredProfile(store: Store): UserProfile {
    if Classify(store, ProfileKey, ProfileKind) == Parsed then store[ProfileKey].profile else DefaultProfile
  }

  /** Removes `key` when the startup guard fails to parse it; otherwise leaves the store alone. */
  function DropUnparseable(store: Store, key: string, kind: Kind): Store {
    if Classify(store, key, kind) == Unparseable then store - {key} else store
  }

  /** The removals of the startup effect: each record the guard fails to parse
      is deleted, and nothing else in the store changes. */
  function Heal(store: Store): (r: Store)
    ensures Lookup(r, ProgressKey) == if Classify(store, ProgressKey, ProgressKind) == Unparseable then None else Lookup(store, ProgressKey)
    ensures Lookup(r, HistoryKey) == if Classify(store, HistoryKey, HistoryKind) == Unparseable then None else Lookup(store, HistoryKey)
    ensures Lookup(r, ProfileKey) == if Classify(store, ProfileKey, ProfileKind) == Unparseable then None else Lookup(store, ProfileKey)
    ensures r.Keys <= store.Keys
    ensures SameExcept(store, r, {ProgressKey, HistoryKey, ProfileKey})
  {
    var afterProgress := DropUnparseable(store, ProgressKey, ProgressKind);
    var afterHistory := DropUnparseable(afterProgress, HistoryKey, HistoryKind);
    DropUnparseable(afterHistory, ProfileKey, ProfileKind)
  }

  /** The startup effect: read the token, then each of the three records in turn. */
  function Startup(store: Store): (r: App)
    // auth gate: a truthy token locks the session under that identity
    ensures Present(store, TokenKey) ==> r.auth == Locked
    ensures Present(store, TokenKey) && store[TokenKey].Text? ==> r.email == store[TokenKey].s
    ensures !Present(store, TokenKey) ==> r.auth == LoggedOut && r.email == ""
    // saved progress
    ensures Present(store, ProgressKey) && store[ProgressKey].ProgressBlob? ==>
      r.saved == Some(store[ProgressKey].progress) && Lookup(r.store, ProgressKey) == Lookup(store, ProgressKey)
    ensures Present(store, ProgressKey) && !store[ProgressKey].ProgressBlob? ==>
      r.saved == None && ProgressKey !in r.store
    ensures !Present(store, ProgressKey) ==>
      r.saved == None && Lookup(r.store, ProgressKey) == Lookup(store, ProgressKey)
    // history
    ensures Present(store, HistoryKey) && store[HistoryKey].HistoryBlob? ==>
      r.history == store[HistoryKey].attempts && Lookup(r.store, HistoryKey) == Lookup(store, HistoryKey)
    ensures Present(store, HistoryKey) && !store[HistoryKey].HistoryBlob? ==>
      r.history == [] && HistoryKey !in r.store
    ensures !Present(store, HistoryKey) ==>
      r.history == [] && Lookup(r.store, HistoryKey) == Lookup(store, HistoryKey)
    // profile
    ensures Present(store, ProfileKey) && store[ProfileKey].ProfileBlob? ==>
      r.profile == store[ProfileKey].profile && Lookup(r.store, ProfileKey) == Lookup(store, ProfileKey)
    ensures Present(store, ProfileKey) && !store[ProfileKey].ProfileBlob? ==>
      r.profile == DefaultProfile && ProfileKey !in r.store
    ensures !Present(store, ProfileKey) ==>
      r.profile == DefaultProfile && Lookup(r.store, ProfileKey) == Lookup(store, ProfileKey)
    // nothing else is loaded or removed
    ensures r.store.Keys <= store.Keys
    ensures SameExcept(store, r.store, {ProgressKey, HistoryKey, ProfileKey})
    ensures r.authScreen == LoginScreen && r.screen == Home
    ensures r.activeQuiz == None && r.results == None
  {
    var token := ReadToken(store);
    var initial := Initial(Heal(store));
    var gated := if token.Some? then initial.(email := token.value, auth := Locked) else initial.(auth := LoggedOut);
    gated.(saved := StoredProgress(store), history := StoredHistory(store), profile := StoredProfile(store))
  }

  /** `clearSavedProgress`: forget the snapshot in memory and in the store. */
  function ClearSavedProgress(a: App): (r: App)
    ensures r.saved == None && ProgressKey !in r.store
    ensures SameExcept(a.store, r.store, {ProgressKey})
    ensures r.(saved := a.saved, store := a.store) == a
  {
    a.(saved := None, store := a.store - {ProgressKey})
  }

  /** `handleQuizSelect`: start `quiz` afresh. */
  function SelectQuiz(a: App, quiz: Quiz): (r: App)
    ensures r.activeQuiz == Some(quiz) && r.results == None
    ensures r.saved == None && ProgressKey !in r.store
    ensures SameExcept(a.store, r.store, {ProgressKey})
    ensures r.(activeQuiz := a.activeQuiz, results := a.results, saved := a.saved, store := a.store) == a
  {
    ClearSavedProgress(a).(activeQuiz := Some(quiz), results := None)
  }

  /** `addAttemptToHistory`: the attempt goes in front (most recent first) and the whole list is written. */
  function AddAttempt(a: App, attempt: QuizAttempt): (r: App)
    ensures |r.history| == |a.history| + 1
    ensures r.history[0] == attempt && r.history[1..] == a.history
    ensures HistoryKey in r.store && r.store[HistoryKey] == HistoryBlob(r.history)
    ensures SameExcept(a.store, r.store, {HistoryKey})
    ensures r.(history := a.history, store := a.store) == a
  {
    var h := [attempt] + a.history;
    a.(history := h, store := a.store[HistoryKey := HistoryBlob(h)])
  }

  /** `clearQuizHistory`. */
  function ClearHistory(a: App): (r: App)
    ensures r.history == [] && HistoryKey !in r.store
    ensures SameExcept(a.store, r.store, {HistoryKey})
    ensures r.(history := a.history, store := a.store) == a
  {
    a.(history := [], store := a.store - {HistoryKey})
  }

  /** `handleUpdateProfile`: whole-record replacement, in memory and in the store. */
  function UpdateProfile(a: App, p: UserProfile): (r: App)
    ensures r.profile == p
    ensures ProfileKey in r.store && r.store[ProfileKey] == ProfileBlob(p)
    ensures SameExcept(a.store, r.store, {ProfileKey})
    ensures r.(profile := a.profile, store := a.store) == a
  {
    a.(profile := p, store := a.store[ProfileKey := ProfileBlob(p)])
  }

  /** `handleQuizComplete(score)`; `now` stands for `Date.now()`. */
  function CompleteQuiz(a: App, score: int, now: int): (r: App)
    ensures a.activeQuiz.Some? ==>
      var q := a.activeQuiz.value;
      && r.history == [QuizAttempt(q.id, q.title, score, |q.questions|, now)] + a.history
      && r.results == Some(QuizResults(score, |q.questions|, q.id))
      && HistoryKey in r.store && r.store[HistoryKey] == HistoryBlob(r.history)
    ensures a.activeQuiz.None? ==> r.history == a.history && r.results == a.results
    ensures a.activeQuiz.None? ==> Lookup(r.store, HistoryKey) == Lookup(a.store, HistoryKey)
    ensures r.activeQuiz == None && r.saved == None && ProgressKey !in r.store
    ensures SameExcept(a.store, r.store, {HistoryKey, ProgressKey})
    ensures r.auth == a.auth && r.authScreen == a.authScreen && r.email == a.email
    ensures r.screen == a.screen && r.profile == a.profile
  {
    var recorded := match a.activeQuiz
      case Some(q) =>
        var attempt := QuizAttempt(q.id, q.title, score, |q.questions|, now);
        AddAttempt(a, attempt).(results := Some(QuizResults(score, |q.questions|, q.id)))
      case None => a;
    ClearSavedProgress(recorded.(activeQuiz := None))
  }

  /** `handleRestartQuiz`: reopen the quiz of the current results, looked up in the catalog. */
  function RestartQuiz(a: App, catalog: seq<Subject>): (r: App)
    ensures a.results.Some? && a.results.value.quizId != "" && (exists q | q in Flatten(catalog) :: q.id == a.results.value.quizId) ==>
      && r.activeQuiz.Some?
      && FirstWithId(Flatten(catalog), a.results.value.quizId, r.activeQuiz)
      && r == SelectQuiz(a, r.activeQuiz.value)
    ensures (a.results.None? || a.results.value.quizId == "" || forall q | q in Flatten(catalog) :: q.id != a.results.value.quizId) ==>
      r == a
  {
    match a.results
    case None => a
    case Some(res) =>
      if res.quizId == "" then a
      else match FindQuiz(catalog, res.quizId)
        case None => a
        case Some(q) => SelectQuiz(a, q)
  }

  /** `handleGoToLibrary`: leave the results (or a quiz) for the library; the store is untouched. */
  function GoToLibrary(a: App): (r: App)
    ensures r.activeQuiz == None && r.results == None && r.screen == Library
    ensures r.(activeQuiz := a.activeQuiz, results := a.results, screen := a.screen) == a
  {
    a.(activeQuiz := None, results := None, screen := Library)
  }

  /** `setActiveScreen`, as passed to the navigation bar and the screens. */
  function Navigate(a: App, s: Screen): (r: App)
    ensures r.screen == s && r.(screen := a.screen) == a
  {
    a.(screen := s)
  }

  /** Shared tail of the simulated login and sign-up: persist the identity and open the session. */
  function SignIn(a: App, identity: string): App {
    a.(store := a.store[TokenKey := Text(identity)], email := identity, auth := LoggedIn, authScreen := LoginScreen)
  }

  /** `handleLogin`: every attempt succeeds with a fixed identity. */
  function Login(a: App): (r: App)
    ensures r.auth == LoggedIn && r.email == LoginEmail && r.authScreen == LoginScreen
    ensures TokenKey in r.store && r.store[TokenKey] == Text(LoginEmail)
    ensures SameExcept(a.store, r.store, {TokenKey})
    ensures r.(auth := a.auth, email := a.email, authScreen := a.authScreen, store := a.store) == a
  {
    SignIn(a, LoginEmail)
  }

  /** `handleSignUp`: as login, with the sign-up identity. */
  function SignUp(a: App): (r: App)
    ensures r.auth == LoggedIn && r.email == SignUpEmail && r.authScreen == LoginScreen
    ensures TokenKey in r.store && r.store[TokenKey] == Text(SignUpEmail)
    ensures SameExcept(a.store, r.store, {TokenKey})
    ensures r.(auth := a.auth, email := a.email, authScreen := a.authScreen, store := a.store) == a
  {
    SignIn(a, SignUpEmail)
  }

  /** `handlePinSuccess`: any PIN unlocks; the store is not touched. */
  function PinSuccess(a: App): (r: App)
    ensures r.auth == LoggedIn && r.(auth := a.auth) == a
  {
    a.(auth := LoggedIn)
  }

  /** `handleLogout`, from whatever state. */
  function Logout(a: App): (r: App)
    ensures r.auth == LoggedOut && r.email == "" && TokenKey !in r.store
    ensures SameExcept(a.store, r.store, {TokenKey})
    ensures r.(auth := a.auth, email := a.email, store := a.store) == a
  {
    a.(store := a.store - {TokenKey}, auth := LoggedOut, email := "")
  }

  /** The links between the login and sign-up screens. */
  function ShowAuthScreen(a: App, s: AuthScreen): (r: App)
    ensures r.authScreen == s && r.(authScreen := a.authScreen) == a
  {
    a.(authScreen := s)
  }
}
