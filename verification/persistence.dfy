/**
 What survives a reload: each handler's write, read back by the startup
 loader, and the loader's own self-healing.
 */
module Persistence {
  import opened Wrappers
  import opened Types
  import opened Storage
  import opened Catalog
  import opened AppState
  import opened Session

  /** An appended attempt is found in front of the reloaded history. */
  lemma AppendSurvivesReload(a: App, attempt: QuizAttempt)
    ensures Startup(AddAttempt(a, attempt).store).history == [attempt] + a.history
  {
  }

  /** After clearing, a reload finds no history and no history record. */
  lemma ClearSurvivesReload(a: App)
    ensures var b := Startup(ClearHistory(a).store);
      b.history == [] && HistoryKey !in b.store
  {
  }

  /** An edited profile is the profile a reload finds. */
  lemma ProfileSurvivesReload(a: App, p: UserProfile)
    ensures Startup(UpdateProfile(a, p).store).profile == p
  {
  }

  /** A finished quiz leaves no snapshot to resume after a reload. */
  lemma CompletionLeavesNothingToResume(a: App, score: int, now: int)
    ensures Startup(CompleteQuiz(a, score, now).store).saved == None
  {
  }

  /** A login is remembered: the reload asks for the PIN of the same identity. */
  lemma LoginSurvivesReload(a: App)
    ensures var b := Startup(Login(a).store);
      b.auth == Locked && b.email == LoginEmail
  {
  }

  /** A sign-up is remembered the same way, under the sign-up identity. */
  lemma SignUpSurvivesReload(a: App)
    ensures var b := Startup(SignUp(a).store);
      b.auth == Locked && b.email == SignUpEmail
  {
  }

  /** A logout is remembered: the reload starts signed out. */
  lemma LogoutSurvivesReload(a: App)
    ensures var b := Startup(Logout(a).store);
      b.auth == LoggedOut && b.email == ""
  {
  }

  /** The loader heals the store in one pass: loading its output again removes
      nothing more and loads the same state. */
  lemma StartupIdempotent(store: Store)
    ensures Startup(Startup(store).store) == Startup(store)
  {
    var a := Startup(store);
    StartupSynced(store);
    ReloadRestores(a);
    var b := Startup(a.store);
    assert b.auth == a.auth;
  }

  /** A fresh browser starts signed out; after a login and a reload the session is locked, not signed out. */
  lemma FreshLoginReloadScenario()
    ensures Startup(map[]).auth == LoggedOut
    ensures Startup(Login(Startup(map[])).store).auth == Locked
  {
  }

  /** Restarting a just-finished quiz that the catalog holds reopens a quiz with its id, keeps the new attempt, and closes the results. */
  lemma CompleteThenRestart(a: App, catalog: seq<Subject>, score: int, now: int)
    requires a.activeQuiz.Some? && a.activeQuiz.value.id != ""
    requires a.activeQuiz.value in Flatten(catalog)
    ensures var done := CompleteQuiz(a, score, now);
      var r := RestartQuiz(done, catalog);
      && r.activeQuiz.Some? && r.activeQuiz.value.id == a.activeQuiz.value.id
      && r.results == None && r.saved == None
      && r.history == done.history && |r.history| == |a.history| + 1
  {
  }

  /** The restart lookup prefers the earlier subject when two subjects hold a quiz with the same id. */
  lemma RestartPrefersEarlierSubject(a: App)
    requires a.results == Some(QuizResults(3, 4, "q1"))
    ensures var first := Quiz("q1", "First", None, []);
      var second := Quiz("q1", "Second", Some(60), []);
      var catalog := [Subject("s1", "One", [first]), Subject("s2", "Two", [second])];
      RestartQuiz(a, catalog).activeQuiz == Some(first)
  {
  }
}
