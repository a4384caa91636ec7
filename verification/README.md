# Quiz app root state machine, in Dafny

This project models the application root of a mobile-style quiz web app
(`App.tsx`). The root holds the whole in-memory state:

- the three-state auth gate (`LOGGED_OUT`, `LOCKED`, `LOGGED_IN`) and the user's identity;
- the selected screen;
- the active quiz, the quiz results and the saved snapshot of a quiz in progress;
- the attempt history and the user profile.

It mirrors that state into browser storage under four keys:
`userToken`, `savedQuizProgress`, `quizHistory` and `userProfile`.

Each event handler is modelled as a pure function from one `App` record to
the next. The store is an abstract `map<string, Blob>` carried inside the
record. A `Blob` names what a stored string encodes, so no JSON is modelled:

- `Text(s)` is a plain string (the token is written this way);
- `ProgressBlob`, `HistoryBlob` and `ProfileBlob` stand for the JSON text of one record;
- `Corrupt` is a non-empty text that JSON parsing rejects.

JavaScript truthiness is kept: a missing key and the empty string are both
"absent".

Modules, leaf first:

- `Wrappers`: `Option`.
- `Types`: the records of `types.ts`.
- `Storage`: the blob, the keys, and the startup guard's classification of one key.
- `Catalog`: the first-match lookup of a quiz id over all subjects' quizzes, with the catalog as a parameter.
- `AppState`: the state record, the startup loader and every handler.
- `Routing`: which view is shown, and when the navigation bar is drawn.
- `Session`: which callbacks each view offers. It also states the invariant that memory and store agree, proved for every run of offered events from startup.
- `Persistence`: what a reload finds after each handler.

Details of the code the model keeps:

- `App.tsx` tests the stored token for truthiness, so a token that is the empty string leaves the session signed out, not locked.
- `handlePinSuccess` writes nothing to the store; only `handleLogin` and `handleSignUp` write the token.
- `handleLogout` is handed only to the PIN screen.
- `handleRestartQuiz` tests the results' quiz id for truthiness, so an empty id restarts nothing.

## Model

| member | source | states |
|---|---|---|
| Storage.Classify | App.tsx:48-57 | a key is skipped exactly when `getItem` is falsy (missing or empty), and is parsed exactly when it is present and holds a record of the key's type |
| Storage.ReadToken | App.tsx:40-41 | no token exactly when `userToken` is missing or empty; a text token is read as its own string |
| Catalog.FindInQuizzes | App.tsx:128 | the result is the earliest quiz with the id in the list, or none when no quiz has it |
| Catalog.FindQuiz | App.tsx:128 | the result is the earliest quiz with the id among all subjects' quizzes taken in subject order, or none when none has it |
| Catalog.FirstWithIdUnique | App.tsx:128 | the first-match characterisation admits one result only |
| Catalog.FirstWithIdConcat | App.tsx:128 | searching a concatenation finds the first part's match, or else the second part's |
| AppState.Heal | App.tsx:48-79 | each record the startup guard cannot parse is removed, every other record keeps its value, and no other key changes |
| AppState.Startup | App.tsx:39-80 | a truthy token locks the session under that identity, and its absence leaves it signed out with an empty identity. For each of the three records: a well-formed record is loaded and kept; an unparseable one is removed and the default (none, empty, default profile) kept; an absent one changes nothing. No other key is touched |
| AppState.ClearSavedProgress | App.tsx:82-85 | the snapshot is gone from memory and from the store; only `savedQuizProgress` changes |
| AppState.SelectQuiz | App.tsx:87-91 | the chosen quiz becomes active, results close, the snapshot is cleared; only `savedQuizProgress` changes in the store |
| AppState.AddAttempt | App.tsx:93-97 | the history grows by exactly one, with the attempt first and the old list after it, and the stored history equals the new list; only `quizHistory` changes |
| AppState.ClearHistory | App.tsx:99-102 | the history is empty and `quizHistory` is removed; no other key or field changes |
| AppState.UpdateProfile | App.tsx:104-107 | the profile is replaced whole, in memory and under `userProfile`; no other key or field changes |
| AppState.CompleteQuiz | App.tsx:109-123 | with an active quiz: the attempt (quiz id, title, score, question count, time) is prepended, stored, and the results are set to (score, question count, id). Without one: history and results are unchanged. Always: no active quiz, no snapshot, `savedQuizProgress` absent, and only the history and progress keys change |
| AppState.RestartQuiz | App.tsx:125-135 | when results name a non-empty id that some catalog quiz has, the first such quiz in subject order is selected exactly as a fresh selection would; otherwise nothing changes |
| AppState.GoToLibrary | App.tsx:137-141 | quiz and results close and the library screen is selected; the store and the snapshot are untouched |
| AppState.Navigate | App.tsx:196-203 | only the selected screen changes |
| AppState.Login | App.tsx:143-149 | signed in as the fixed login identity, which is stored as the token; the login screen is the one shown after a later sign-out; only `userToken` changes in the store |
| AppState.SignUp | App.tsx:151-157 | as login, with the sign-up identity |
| AppState.PinSuccess | App.tsx:159-161 | signed in, with nothing else changed, the store included |
| AppState.Logout | App.tsx:163-167 | from any state: signed out, empty identity, `userToken` removed, no other key touched |
| AppState.ShowAuthScreen | App.tsx:216-221 | only the choice between the login and sign-up screens changes |
| Routing.Content | App.tsx:169-212 | results shown exactly when present, with their score and total; otherwise the quiz exactly when one is active, handed the root's snapshot; otherwise the screen's own view |
| Routing.ShowNavBar | App.tsx:214 | the bar goes exactly with the home, library and settings content: never with a quiz, the results or the history |
| Routing.Render | App.tsx:232-242 | signed out shows login or sign-up as chosen; the PIN screen, with the identity, exactly when locked; a signed-in session shows the content |
| Routing.NavBarShownOnMainScreens | App.tsx:214-230 | in a signed-in session the bar is drawn exactly over the home, library and settings views |
| Session.Step | App.tsx:172-237 | whichever callback fires, the root changes only its own four keys, creates only the token, history and profile keys, and never writes a snapshot |
| Session.Enabled | App.tsx:169-242 | which callbacks the rendered view hands out. Login and sign-up links go to the chosen signed-out screen, and PIN and logout to the locked one. Completion goes to an open quiz, restart and back-to-subjects to the results, and clearing and profile edits to settings. Selection goes to home and library, and navigation to the main screens, with history only leading back to settings |
| Session.StartupTokenSynced | App.tsx:40-46 | after startup, the stored token decides the gate and the identity |
| Session.StartupRecordsSynced | App.tsx:48-79 | after startup, each record in memory is what the store encodes, and no unparseable record is left |
| Session.StartupSynced | App.tsx:39-80 | after startup, memory equals what the store encodes, no unparseable record is left, and the token decides the gate |
| Session.StepPreservesSynced | App.tsx:82-167 | every handler, fired from a view that offers it, keeps memory and store in agreement |
| Session.StoreKeepingStepPreservesSynced | App.tsx:137-221 | back-to-subjects (App.tsx:137-141), PIN unlock (App.tsx:159-161), navigation (App.tsx:196-203) and the auth screen links (App.tsx:216-221) keep the agreement |
| Session.TokenStepPreservesSynced | App.tsx:143-167 | login, sign-up and logout keep the agreement |
| Session.SelectStepPreservesSynced | App.tsx:87-135 | selecting and restarting a quiz keep the agreement |
| Session.CompleteStepPreservesSynced | App.tsx:109-123 | completion offered by the quiz view keeps the agreement |
| Session.SettingsStepPreservesSynced | App.tsx:93-107 | clearing history and editing the profile keep the agreement |
| Session.RunPreservesSynced | App.tsx:82-167 | agreement is kept along any sequence of offered events |
| Session.ReachableSynced | App.tsx:39-167 | every state reachable from startup keeps memory and store in agreement, never shows results and a quiz at once, and never holds a snapshot while a quiz is open |
| Session.ReloadRestores | App.tsx:39-80 | from an agreeing state a reload restores snapshot, history, profile and identity, removes nothing, and brings a signed-in session back locked |
| Session.QuizViewNeverResumes | App.tsx:87-91 | in every state reachable from startup, the quiz view is handed no saved state |
| Session.SelectQuizResuming | App.tsx:87-91 | corrected selection: the chosen quiz opens and the results close; a snapshot of the chosen quiz is kept in memory and in the store, any other snapshot is cleared as the code does, and nothing else changes |
| Session.ResumingSelectionReachesQuizView | App.tsx:48-57 | for a store holding a token and a snapshot, startup offers the PIN unlock, and after it the corrected selection hands the loaded snapshot to its quiz's view with the records still in agreement |
| Session.EnabledCompletionRecords | App.tsx:109-120 | completion offered by the quiz view always records one attempt for the active quiz and sets the results |
| Persistence.AppendSurvivesReload | App.tsx:93-97 | a reload after an append finds the attempt in front of the previous history |
| Persistence.ClearSurvivesReload | App.tsx:99-102 | a reload after clearing finds an empty history and no history record |
| Persistence.ProfileSurvivesReload | App.tsx:104-107 | a reload after a profile edit finds that profile |
| Persistence.CompletionLeavesNothingToResume | App.tsx:109-123 | a reload after completion finds no snapshot |
| Persistence.LoginSurvivesReload | App.tsx:143-149 | a reload after login is locked under the login identity |
| Persistence.SignUpSurvivesReload | App.tsx:151-157 | a reload after sign-up is locked under the sign-up identity |
| Persistence.LogoutSurvivesReload | App.tsx:163-167 | a reload after logout is signed out with no identity |
| Persistence.StartupIdempotent | App.tsx:48-79 | the loader heals the store in one pass: loading again removes nothing and loads the same state |
| Persistence.FreshLoginReloadScenario | App.tsx:39-46 | an empty store starts signed out; after login and a reload the session is locked |
| Persistence.CompleteThenRestart | App.tsx:109-135 | restarting a finished catalog quiz reopens a quiz with that id, keeps the new attempt and closes the results |
| Persistence.RestartPrefersEarlierSubject | App.tsx:128-131 | with the same id in two subjects, restart reopens the quiz of the earlier subject |

## Left out

- The quiz screen's own session logic (timer ticks, answering, snapshot writes, and what it does with the `savedState` it is handed) is not part of this model. That screen writes `savedQuizProgress` itself, so the memory/store agreement proved here covers the root's handlers only.
- Rendering, JSX and the screen components are presentation. A `View` value stands for what is rendered.
- JSON encoding and parsing are replaced by the typed `Blob`.
- Storage.Classify, AppState.Heal, AppState.Startup: a well-formed record of the wrong type under a key is treated as unparseable and removed, because a typed model cannot hold it. The code's unchecked cast would load it as-is.
- Storage.Classify, AppState.Heal, AppState.Startup: every non-empty plain text under a record key is treated as unparseable and removed. That includes texts that are valid JSON, such as `null`, `0` or `[]`, which the code keeps and loads. A loaded `null` history, for one, makes the next append throw.
- Storage.ReadToken: a non-text blob under `userToken` reads as the empty identity, because the model does not represent its text. The code would show that text as the locked user's email.
- Storage as real I/O, write failures and changes made by other tabs are not modelled.
- `Date.now()` is the `now` parameter of `CompleteQuiz`.
- `console.error` has no effect on state.
- The static catalog content and the subject icons are left out. The catalog is a parameter of the restart lookup.
- JavaScript numbers are modelled as unbounded integers; fractions and `NaN` are not represented.
- The `default` branch of the screen switch cannot be reached, because `Screen` is a closed enumeration.
- React's batching and stale closures are not modelled. Each handler is one atomic sequential step.

## Findings

| source | as written | input that shows it | evidently intended | confidence | as-written member | corrected member |
|---|---|---|---|---|---|---|
| App.tsx:87-91 | Selecting a quiz clears the saved snapshot before the quiz screen is shown, and restart selects the same way. So the snapshot loaded at startup is never handed to the quiz screen (App.tsx:181) | A store holding a `userToken` and a `savedQuizProgress` snapshot of quiz `q1`; unlock with the PIN, then select `q1`. The quiz opens with no saved state and the snapshot is deleted | Selecting the quiz a snapshot belongs to resumes from it | medium, not executed; the quiz screen's code is not part of this model | Session.QuizViewNeverResumes | Session.SelectQuizResuming |

The event model keeps the code's selection, so its invariants describe the program as written. `Session.ResumingSelectionReachesQuizView` proves the intended property of the corrected selection and shows that it keeps the stored records in agreement.
