/**
 The browser key-value store as an abstract map. Every stored value is a
 string in the browser; instead of modelling JSON, a `Blob` names what that
 string encodes.
 */
module Storage {
  import opened Wrappers
  import opened Types

  datatype Blob =
    | Text(s: string)                          // a plain string, as the token is written
    | ProgressBlob(progress: SavedQuizState)   // JSON text of a snapshot
    | HistoryBlob(attempts: seq<QuizAttempt>)  // JSON text of an attempt list
    | ProfileBlob(profile: UserProfile)        // JSON text of a profile
    | Corrupt                                  // a non-empty text that JSON parsing rejects

  type Store = map<string, Blob>

  const TokenKey: string := "userToken"
  const ProgressKey: string := "savedQuizProgress"
  const HistoryKey: string := "quizHistory"
  const ProfileKey: string := "userProfile"

  /** The record type each JSON key is read back as. */
  datatype Kind = ProgressKind | HistoryKind | ProfileKind

  predicate Fits(b: Blob, kind: Kind) {
    match kind
    case ProgressKind => b.ProgressBlob?
    case HistoryKind => b.HistoryBlob?
    case ProfileKind => b.ProfileBlob?
  }

  /** What `getItem` returns, `None` standing for `null`. */
  function Lookup(store: Store, key: string): Option<Blob> {
    if key in store then Some(store[key]) else None
  }

  /** JavaScript truthiness of `getItem(key)`: `null` and the empty string are falsy. */
  predicate Present(store: Store, key: string) {
    key in store && store[key] != Text("")
  }

  /** The outcome of the startup guard `if (json) { try { JSON.parse(json) } catch … }` on one key. */
  datatype Status = Skip | Parsed | Unparseable

  function Classify(store: Store, key: string, kind: Kind): (r: Status)
    ensures r == Parsed <==> Present(store, key) && Fits(store[key], kind)
    ensures r == Skip <==> !Present(store, key)
  {
    if !Present(store, key) then Skip
    else if Fits(store[key], kind) then Parsed
    else Unparseable
  }

  /** The token a restart finds: `None` when `getItem` is falsy. A non-text
      blob under the token key is truthy but its text is not represented, so it
      reads as the empty identity. */
  function ReadToken(store: Store): (r: Option<string>)
    ensures r.None? <==> !Present(store, TokenKey)
    ensures Present(store, TokenKey) && store[TokenKey].Text? ==> r == Some(store[TokenKey].s)
  {
    if !Present(store, TokenKey) then None
    else match store[TokenKey]
      case Text(s) => Some(s)
      case _ => Some("")
  }

  /** `m` and `m'` agree on every key outside `keys`. */
  predicate SameExcept(m: Store, m': Store, keys: set<string>) {
    m - keys == m' - keys
  }
}
