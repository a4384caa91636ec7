/**
 What the application shows: the auth gate, then the results and quiz
 overlays, then the selected screen. A pure function to a `View` stands for
 the rendered component tree.
 */
module Routing {
  import opened Wrappers
  import opened Types
  import opened AppState

  datatype View =
    | LoginView
    | SignUpView
    | PinView(userEmail: string)
    | ResultsView(score: int, totalQuestions: int)
    | QuizView(quiz: Quiz, savedState: Option<SavedQuizState>)
    | HomeView
    | LibraryView
    | SettingsView
    | HistoryView

  /** `renderContent`: results take precedence over a running quiz, which takes precedence over the screen. */
  function Content(a: App): (v: View)
    ensures v.ResultsView? <==> a.results.Some?
    ensures a.results.Some? ==> v == ResultsView(a.results.value.score, a.results.value.total)
    ensures v.QuizView? <==> a.results.None? && a.activeQuiz.Some?
    ensures v.QuizView? ==> v.quiz == a.activeQuiz.value && v.savedState == a.saved
    ensures a.results.None? && a.activeQuiz.None? ==>
      (v == HistoryView <==> a.screen == History) &&
      (v == SettingsView <==> a.screen == Settings) &&
      (v == LibraryView <==> a.screen == Library) &&
      (v == HomeView <==> a.screen == Home)
  {
    match a.results
    case Some(res) => ResultsView(res.score, res.total)
    case None =>
      match a.activeQuiz
      case Some(q) => QuizView(q, a.saved)
      case None =>
        match a.screen
        case Home => HomeView
        case Library => LibraryView
        case Settings => SettingsView
        case History => HistoryView
  }

  /** `showNavBar`: the bar goes with the three main screens' content, never with a quiz, the results or the history. */
  function ShowNavBar(a: App): (shown: bool)
    ensures shown <==> Content(a) == HomeView || Content(a) == LibraryView || Content(a) == SettingsView
  {
    a.activeQuiz.None? && a.results.None? && a.screen != History
  }

  /** `renderBasedOnAuthState`: only a signed-in session reaches the content. */
  function Render(a: App): (v: View)
    ensures a.auth == LoggedOut ==> (v == LoginView <==> a.authScreen == LoginScreen) && (v == SignUpView <==> a.authScreen == SignUpScreen)
    ensures v.PinView? <==> a.auth == Locked
    ensures v.PinView? ==> v.userEmail == a.email
    ensures a.auth == LoggedIn ==> v == Content(a)
  {
    match a.auth
    case LoggedIn => Content(a)
    case Locked => PinView(a.email)
    case LoggedOut =>
      match a.authScreen
      case LoginScreen => LoginView
      case SignUpScreen => SignUpView
  }

  /** The bar is drawn exactly over the home, library and settings screens of a signed-in session. */
  lemma NavBarShownOnMainScreens(a: App)
    requires a.auth == LoggedIn
    ensures ShowNavBar(a) <==> Render(a) in {HomeView, LibraryView, SettingsView}
  {
  }
}
