/**
 The application as an event-driven machine: each user action is an event,
 an event can fire only when the rendered view offers its callback, and the
 store stays in agreement with memory along every such run from startup.
 */
module Session {
  import opened Wrappers
  import opened Types
  import opened Storage
  import opened Catalog
  import opened AppState
  import opened Routing

  /** One callback of the rendered tree, named after the prop that carries it. */
  datatype Event =
    | OnLogin
    | OnSignUp
    | OnGoToSignUp
    | OnGoToLogin
    | OnPinSuccess
    | OnLogout
    | OnQuizSelect(quiz: Quiz)
    | OnNavigate(target: Screen)
    | OnQuizComplete(score: int, now: int)
    | OnRestart
    | OnGoToSubjects
    | OnClearHistory
    | OnUpdateProfile(profile: UserProfile)

  /** The handler each callback is bound to. The root writes only the token,
      the history and the profile, removes only its own four keys, and never
      writes a snapshot. */
  function Step(a: App, ev: Event, catalog: seq<Subject>): (r: App)
    ensures SameExcept(a.store, r.store, {TokenKey, ProgressKey, HistoryKey, ProfileKey})
    ensures r.store.Keys <= a.store.Keys + {TokenKey, HistoryKey, ProfileKey}
    ensures ProgressKey in r.store ==> ProgressKey in a.store && r.store[ProgressKey] == a.store[ProgressKey]
  {
    match ev
    case OnLogin => Login(a)
    case OnSignUp => SignUp(a)
    case OnGoToSignUp => ShowAuthScreen(a, SignUpScreen)
    case OnGoToLogin => ShowAuthScreen(a, LoginScreen)
    case OnPinSuccess => PinSuccess(a)
    case OnLogout => Logout(a)
    case OnQuizSelect(q) => SelectQuiz(a, q)
    case OnNavigate(s) => Navigate(a, s)
    case OnQuizComplete(score, now) => CompleteQuiz(a, score, now)
    case OnRestart => RestartQuiz(a, catalog)
    case OnGoToSubjects => GoToLibrary(a)
    case OnClearHistory => ClearHistory(a)
    case OnUpdateProfile(p) => UpdateProfile(a, p)
  }

  /** Whether the view on display hands out the callback of `ev`: the login and
      sign-up screens their own; the PIN screen unlock and logout; the home and
      library screens quiz selection; the navigation bar, the home screen and
      the settings screen navigation, and the history screen its way back to
      settings; the quiz screen completion; the results screen restart and the
      way back to the subjects; the settings screen clearing history and
      editing the profile. */
  function Enabled(a: App, ev: Event): (r: bool)
    ensures (ev.OnLogin? || ev.OnGoToSignUp?) ==> (r <==> a.auth == LoggedOut && a.authScreen == LoginScreen)
    ensures (ev.OnSignUp? || ev.OnGoToLogin?) ==> (r <==> a.auth == LoggedOut && a.authScreen == SignUpScreen)
    ensures (ev.OnPinSuccess? || ev.OnLogout?) ==> (r <==> a.auth == Locked)
    ensures ev.OnQuizComplete? ==> (r <==> a.auth == LoggedIn && a.results.None? && a.activeQuiz.Some?)
    ensures (ev.OnRestart? || ev.OnGoToSubjects?) ==> (r <==> a.auth == LoggedIn && a.results.Some?)
    ensures (ev.OnClearHistory? || ev.OnUpdateProfile?) ==>
      (r <==> a.auth == LoggedIn && a.results.None? && a.activeQuiz.None? && a.screen == Settings)
    ensures ev.OnQuizSelect? ==>
      (r <==> a.auth == LoggedIn && a.results.None? && a.activeQuiz.None? && (a.screen == Home || a.screen == Library))
    ensures ev.OnNavigate? ==>
      (r <==> a.auth == LoggedIn && a.results.None? && a.activeQuiz.None? && (a.screen != History || ev.target == Settings))
  {
    var v := Render(a);
    match ev
    case OnLogin => v == LoginView
    case OnGoToSignUp => v == LoginView
    case OnSignUp => v == SignUpView
    case OnGoToLogin => v == SignUpView
    case OnPinSuccess => v.PinView?
    case OnLogout => v.PinView?
    case OnQuizSelect(_) => v == HomeView || v == LibraryView
    case OnNavigate(s) => v == HomeView || v == LibraryView || v == SettingsView || (v == HistoryView && s == Settings)
    case OnQuizComplete(_, _) => v.QuizView?
    case OnRestart => v.ResultsView?
    case OnGoToSubjects => v.ResultsView?
    case OnClearHistory => v == SettingsView
    case OnUpdateProfile(_) => v == SettingsView
  }

  /** The token decides the gate: signed out exactly when no token is stored,
      and otherwise the identity is the token's. */
  predicate TokenSynced(a: App) {
    && (a.auth == LoggedOut <==> ReadToken(a.store).None?)
    && (a.auth == LoggedOut ==> a.email == "")
    && (ReadToken(a.store).Some? ==> a.email == ReadToken(a.store).value)
  }

  /** Each record in memory is what a restart would load, and no unparseable record lingers in the store. */
  predicate RecordsSynced(a: App) {
    && Classify(a.store, ProgressKey, ProgressKind) != Unparseable
    && Classify(a.store, HistoryKey, HistoryKind) != Unparseable
    && Classify(a.store, ProfileKey, ProfileKind) != Unparseable
    && a.saved == StoredProgress(a.store)
    && a.history == StoredHistory(a.store)
    && a.profile == StoredProfile(a.store)
  }

  /** The results and quiz overlays never coexist, and an open quiz carries no snapshot. */
  predicate OverlaysSettled(a: App) {
    && !(a.activeQuiz.Some? && a.results.Some?)
    && (a.activeQuiz.Some? ==> a.saved.None?)
  }

  /** Memory and store agree, and the overlays are settled. */
  predicate Synced(a: App) {
    TokenSynced(a) && RecordsSynced(a) && OverlaysSettled(a)
  }

  function Run(a: App, evs: seq<Event>, catalog: seq<Subject>): App
    decreases |evs|
  {
    if |evs| == 0 then a else Run(Step(a, evs[0], catalog), evs[1..], catalog)
  }

  /** Every event of `evs` is offered by the view current when it fires. */
  predicate EnabledTrace(a: App, evs: seq<Event>, catalog: seq<Subject>)
    decreases |evs|
  {
    |evs| == 0 || (Enabled(a, evs[0]) && EnabledTrace(Step(a, evs[0], catalog), evs[1..], catalog))
  }

  lemma StartupTokenSynced(store: Store)
    ensures TokenSynced(Startup(store))
  {
  }

  lemma StartupRecordsSynced(store: Store)
    ensures RecordsSynced(Startup(store))
  {
  }

  lemma StartupSynced(store: Store)
    ensures Synced(Startup(store))
  {
    StartupTokenSynced(store);
    StartupRecordsSynced(store);
  }

  /** Handlers that leave the store alone change neither the token nor a record. */
  lemma StoreKeepingStepPreservesSynced(a: App, ev: Event, catalog: seq<Subject>)
    requires Synced(a) && Enabled(a, ev)
    requires ev.OnGoToSignUp? || ev.OnGoToLogin? || ev.OnPinSuccess? || ev.OnNavigate? || ev.OnGoToSubjects?
    ensures Synced(Step(a, ev, catalog))
  {
  }

  /** Login, sign-up and logout write only the token. */
  lemma TokenStepPreservesSynced(a: App, ev: Event, catalog: seq<Subject>)
    requires Synced(a) && Enabled(a, ev)
    requires ev.OnLogin? || ev.OnSignUp? || ev.OnLogout?
    ensures Synced(Step(a, ev, catalog))
  {
    var r := Step(a, ev, catalog);
    assert SameExcept(a.store, r.store, {TokenKey});
    assert RecordsSynced(r);
  }

  /** Selecting or restarting a quiz removes only the snapshot. */
  lemma SelectStepPreservesSynced(a: App, ev: Event, catalog: seq<Subject>)
    requires Synced(a) && Enabled(a, ev)
    requires ev.OnQuizSelect? || ev.OnRestart?
    ensures Synced(Step(a, ev, catalog))
  {
    var r := Step(a, ev, catalog);
    assert SameExcept(a.store, r.store, {ProgressKey});
    assert TokenSynced(r);
  }

  /** Completion rewrites the history and removes the snapshot. */
  lemma CompleteStepPreservesSynced(a: App, score: int, now: int, catalog: seq<Subject>)
    requires Synced(a) && Enabled(a, OnQuizComplete(score, now))
    ensures Synced(Step(a, OnQuizComplete(score, now), catalog))
  {
    var r := CompleteQuiz(a, score, now);
    assert SameExcept(a.store, r.store, {HistoryKey, ProgressKey});
    assert TokenSynced(r);
  }

  /** The settings handlers rewrite or remove one record each. */
  lemma SettingsStepPreservesSynced(a: App, ev: Event, catalog: seq<Subject>)
    requires Synced(a) && Enabled(a, ev)
    requires ev.OnClearHistory? || ev.OnUpdateProfile?
    ensures Synced(Step(a, ev, catalog))
  {
    var r := Step(a, ev, catalog);
    assert SameExcept(a.store, r.store, {HistoryKey, ProfileKey});
    assert TokenSynced(r);
  }

  lemma StepPreservesSynced(a: App, ev: Event, catalog: seq<Subject>)
    requires Synced(a) && Enabled(a, ev)
    ensures Synced(Step(a, ev, catalog))
  {
    match ev
    case OnLogin => TokenStepPreservesSynced(a, ev, catalog);
    case OnSignUp => TokenStepPreservesSynced(a, ev, catalog);
    case OnLogout => TokenStepPreservesSynced(a, ev, catalog);
    case OnGoToSignUp => StoreKeepingStepPreservesSynced(a, ev, catalog);
    case OnGoToLogin => StoreKeepingStepPreservesSynced(a, ev, catalog);
    case OnPinSuccess => StoreKeepingStepPreservesSynced(a, ev, catalog);
    case OnNavigate(_) => StoreKeepingStepPreservesSynced(a, ev, catalog);
    case OnGoToSubjects => StoreKeepingStepPreservesSynced(a, ev, catalog);
    case OnQuizSelect(_) => SelectStepPreservesSynced(a, ev, catalog);
    case OnRestart => SelectStepPreservesSynced(a, ev, catalog);
    case OnQuizComplete(score, now) => CompleteStepPreservesSynced(a, score, now, catalog);
    case OnClearHistory => SettingsStepPreservesSynced(a, ev, catalog);
    case OnUpdateProfile(_) => SettingsStepPreservesSynced(a, ev, catalog);
  }

  lemma {:induction false} RunPreservesSynced(a: App, evs: seq<Event>, catalog: seq<Subject>)
    requires Synced(a) && EnabledTrace(a, evs, catalog)
    ensures Synced(Run(a, evs, catalog))
    decreases |evs|
  {
    if |evs| > 0 {
      StepPreservesSynced(a, evs[0], catalog);
      RunPreservesSynced(Step(a, evs[0], catalog), evs[1..], catalog);
    }
  }

  /** Whatever the user does after startup, memory and store stay in agreement. */
  lemma ReachableSynced(store: Store, evs: seq<Event>, catalog: seq<Subject>)
    requires EnabledTrace(Startup(store), evs, catalog)
    ensures Synced(Run(Startup(store), evs, catalog))
  {
    StartupSynced(store);
    RunPreservesSynced(Startup(store), evs, catalog);
  }

  /** In an agreeing state, a reload restores every record, removes nothing,
      and brings a signed-in session back locked under the same identity. */
  lemma ReloadRestores(a: App)
    requires Synced(a)
    ensures var b := Startup(a.store);
      && b.store == a.store
      && b.saved == a.saved && b.history == a.history && b.profile == a.profile
      && (b.auth == LoggedOut <==> a.auth == LoggedOut)
      && (a.auth != LoggedOut ==> b.auth == Locked)
      && b.email == a.email
  {
  }

  /** As written, a loaded snapshot never reaches the quiz screen: both ways
      into a quiz clear the snapshot first, so in every state reachable from
      startup the quiz view is handed no saved state. */
  lemma QuizViewNeverResumes(store: Store, evs: seq<Event>, catalog: seq<Subject>)
    requires EnabledTrace(Startup(store), evs, catalog)
    ensures var v := Render(Run(Startup(store), evs, catalog));
      v.QuizView? ==> v.savedState == None
  {
    ReachableSynced(store, evs, catalog);
  }

  /** Quiz selection that resumes a matching snapshot instead of discarding it:
      a snapshot of the chosen quiz is kept in memory and in the store, and any
      other snapshot is cleared as before. */
  function SelectQuizResuming(a: App, quiz: Quiz): (r: App)
    ensures r.activeQuiz == Some(quiz) && r.results == None
    ensures a.saved.Some? && a.saved.value.quizId == quiz.id ==> r.saved == a.saved && r.store == a.store
    ensures r.(activeQuiz := a.activeQuiz, results := a.results, saved := a.saved, store := a.store) == a
    ensures !(a.saved.Some? && a.saved.value.quizId == quiz.id) ==> r == SelectQuiz(a, quiz)
  {
    match a.saved
    case Some(snap) =>
      if snap.quizId == quiz.id then a.(activeQuiz := Some(quiz), results := None) else SelectQuiz(a, quiz)
    case None => SelectQuiz(a, quiz)
  }

  /** With the resuming selection, a snapshot loaded at startup reaches the quiz
      screen of the quiz it belongs to, and the records stay in agreement. A
      stored token is what puts the PIN screen, and so the unlock, on display. */
  lemma ResumingSelectionReachesQuizView(store: Store, quiz: Quiz)
    requires Present(store, TokenKey)
    requires Present(store, ProgressKey) && store[ProgressKey].ProgressBlob?
    requires store[ProgressKey].progress.quizId == quiz.id
    ensures Enabled(Startup(store), OnPinSuccess)
    ensures var a := PinSuccess(Startup(store));
      var r := SelectQuizResuming(a, quiz);
      && Render(r) == QuizView(quiz, Some(store[ProgressKey].progress))
      && TokenSynced(r) == TokenSynced(a) && RecordsSynced(r)
  {
    StartupRecordsSynced(store);
  }

  /** The quiz screen is the only view offering completion, so an enabled completion always records an attempt. */
  lemma EnabledCompletionRecords(a: App, score: int, now: int)
    requires Enabled(a, OnQuizComplete(score, now))
    ensures var r := CompleteQuiz(a, score, now);
      && |r.history| == |a.history| + 1
      && r.history[0].quizId == a.activeQuiz.value.id
      && r.results.Some? && r.results.value.score == score
  {
  }
}
