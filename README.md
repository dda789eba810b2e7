# usePopcorn: search state machine, watched list, selection and cast lines

A Dafny model of the logic of usePopcorn, a React movie-search and watchlist UI. The network,
the DOM and browser storage are treated as abstract inputs. Four pieces are modelled:

- **The search-result state machine** of the `useMovie` hook (src/useMovie.js) and its inline
  copy in the root component of src/App-v2.js. The hook exposes `movies`, `error` and
  `isLoading`. Two kinds of event drive it:
  - a query change, which either hits the three-character gate or starts a request. The
    gate counts JavaScript string length, that is UTF-16 code units, so a character above
    U+FFFF counts twice (`SearchMachine.Utf16Length`);
  - a request that settles.

  Each effect run's `AbortController` is modelled as a token: the number of the run that
  started the request. A request is current when it belongs to the latest run and that run
  has not been cleaned up. A request that is not current ends in an AbortError, whatever
  the network did.
  - `SearchMachine` states the machine as pure functions on a `SearchState` value, with an
    invariant and lemmas over whole event sequences.
  - `UseMovie.MovieSearch` and `AppV2.App` are classes whose fields the methods update in
    the order the source's setters run. Each method is proved to take the step that
    `SearchMachine` specifies.
- **The watched list**: append, delete by id (a `filter`), the `isWatched` test, the
  `watchedUserRating` lookup, and the entry that "add to list" builds (`WatchedList`, with
  `Seqs.Filter` for JavaScript's `filter`).
- **The selection**: toggle on click, and close (`Selection` and the root classes). In
  App-v2.js the selection is also reset when a search starts.
- **The actors and director lines**: the persons with one profession, their names, joined
  with `", "` (`Cast`). `Cast.SplitCredits` reads a line back. For one or more names without
  commas, splitting a line gives back exactly the names it was built from. With no person of
  the profession the line is `''`, which reads back as one empty name, not as none.

In App.js, the counter `countRef` of the detail view is a field of `AppMain.MovieDetails`. A
ghost history of rating changes ties it to "the number of times the rating changed to a
truthy value". The persist effect is the `stored` field of `AppMain.App`: the last snapshot
written to the 'watched' storage slot.

In four places the code behaves differently from what a reader of its intent might expect. The model follows the code:

- An ok response whose `total` is falsy sets the not-found message and **leaves `movies`
  as it was**. It does not clear the list (src/useMovie.js:40-48).
- A query shorter than three code units clears `movies` and `error` but **does not touch
  `isLoading`** (src/useMovie.js:54-58). If a request was in flight, its own `finally`
  clears the flag later.
- A superseded request is aborted, but its `finally` still runs. So it **clears
  `isLoading` while the newer request is in flight** (lemma
  `SupersededRequestClearsLoading`).
- Besides a bad status, a good response and an abort, a request can end because `fetch` or
  `res.json()` threw something else, such as a network failure or a malformed body. The
  `catch` then shows that error's own message, not the connection message. This is the
  `Failed(message)` outcome.

## Model

| member | source | states |
|---|---|---|
| SearchMachine.Utf16Length | src/useMovie.js:54 | `query.length` in UTF-16 code units: between the number of characters and twice it, and equal to it when no character is above U+FFFF |
| SearchMachine.SurrogatePairCountsTwice | src/useMovie.js:54 | An emoji followed by a letter is two characters but length 3, so it passes the gate and starts a request |
| SearchMachine.HasMatches | src/useMovie.js:40 | `Boolean(data.total)`: false for an absent total and for 0, true for any other count |
| SearchMachine.Init | src/useMovie.js:11-13 | Before the first effect: empty list, no error, not loading, nothing in flight |
| SearchMachine.EffectStep | src/useMovie.js:19-65 | Every query change aborts the previous run's request: no token in flight stays current. A query whose UTF-16 length is below 3: list `[]`, error `''`, no request, no abort cleanup registered, `isLoading` untouched. Otherwise `isLoading` true and error `''` before any outcome, list kept, one new request in flight. Keeps the invariant |
| SearchMachine.QueryStep | src/useMovie.js:67 | The effect runs only when the query is a different value; the same value changes nothing |
| SearchMachine.Mounted | src/useMovie.js:15-68 | The state after mounting satisfies the invariant; a gated first query shows an empty list with no error and no loader |
| SearchMachine.Settle | src/useMovie.js:36-48 | Classifies the outcome. Non-ok: the connection message, list kept. Ok with falsy total: 'Фильм не найден', list kept. Ok with truthy total: list = docs, error `''`. Other error: its message. Abort: nothing changes. The list changes only on a successful search with matches |
| SearchMachine.CompleteStep | src/useMovie.js:44-51 | Any settling request clears `isLoading` and leaves the in-flight set. Only the current request applies its outcome; a superseded one leaves list and error unchanged. Keeps the invariant |
| SearchMachine.UnmountStep | src/useMovie.js:63-65 | The cleanup leaves no current request and changes nothing shown |
| SearchMachine.RunKeepsValid | src/useMovie.js:21-51 | Any event sequence keeps the invariant: tokens in flight were issued, and `isLoading` implies a request in flight |
| SearchMachine.LoadingOnlyWhileInFlight | src/useMovie.js:22-50 | After mounting and any events, `isLoading` is true only while some request is in flight |
| SearchMachine.OnlyCurrentRequestSettles | src/useMovie.js:44-48 | Without a new query, completions of superseded requests, in any number and order, never change list or error. Only the first completion of the current request does, by its outcome |
| SearchMachine.LastQueryWins | src/useMovie.js:19-67 | After a new query, list and error depend only on that query and its own request's outcome. Gated: `[]` and `''`. Otherwise: the old list and `''` until the new request settles them |
| SearchMachine.NothingSettlesAfterUnmount | src/useMovie.js:63-65 | After the unmount cleanup no completion changes list or error |
| SearchMachine.SupersededRequestClearsLoading | src/useMovie.js:49-51 | Two searches in a row, then the first (aborted) one settles: `isLoading` becomes false while the second request is current and still in flight |
| SearchMachine.TypingScenario | src/useMovie.js:54-61 | After mounting with `''`, typing "ab" is gated and "iron" starts a request with loader on and no error; its response with total 1 becomes the list, with no error, no loader and nothing in flight |
| UseMovie.MovieSearch.constructor | src/useMovie.js:11-68 | Mounting gives the `useState` initial values followed by the effect for the first query |
| UseMovie.MovieSearch.RunEffect | src/useMovie.js:19-65 | The effect body's setters make exactly `EffectStep`. It returns the new request's token exactly when the query passes the gate |
| UseMovie.MovieSearch.SetQuery | src/useMovie.js:67 | Makes `QueryStep` and keeps the invariant. A gated change leaves `[]`, `''` and no request. A started request is current, with loader on and error cleared, and earlier requests are no longer current |
| UseMovie.MovieSearch.Complete | src/useMovie.js:24-51 | The `try`/`catch`/`finally` make exactly `CompleteStep`: `isLoading` is always false, and a stale token changes neither list nor error |
| UseMovie.MovieSearch.Unmount | src/useMovie.js:63-65 | The cleanup makes `UnmountStep` |
| Seqs.Filter | src/App.js:41 | `filter` keeps exactly the elements satisfying the predicate and is never longer than its input |
| WatchedList.Ids | src/App.js:221 | The ids of the entries, position by position |
| WatchedList.IsWatched | src/App.js:221 | `isWatched` holds iff some entry's id equals the id |
| WatchedList.Append | src/App.js:34-35 | Length + 1, the earlier entries unchanged and in order, the new movie last. An id is watched afterwards iff it was, or it is the new movie's |
| WatchedList.Delete | src/App.js:40-41 | Keeps exactly the entries whose id differs and no entry with the id; never grows |
| WatchedList.DeleteKeepsOrder | src/App.js:40-41 | Delete distributes over concatenation, so the survivors keep their original order |
| WatchedList.DeleteAbsent | src/App.js:40-41 | Deleting an id that is not in the list leaves it unchanged |
| WatchedList.DeleteIdempotent | src/App.js:40-41 | Deleting twice equals deleting once |
| WatchedList.DeleteRemovesEvery | src/App.js:40-41 | The length drops by the number of entries with that id, so several entries sharing it all go |
| WatchedList.DeleteCommutes | src/App.js:40-41 | Deleting two ids in either order gives the same list |
| WatchedList.AppendThenDelete | src/App.js:34-41 | Appending an entry whose id is absent, then deleting that id, restores the previous list |
| WatchedList.NewEntry | src/App.js:228-236 | The entry that "add to list" builds: the selected id, the detail's name, poster URL, rating and runtime, the user's rating, and the counter (absent in src/App-v2.js:237-244) |
| WatchedList.AddedEntryIsFound | src/App.js:220-236 | After adding a movie that was not watched, it is watched and its shown rating is the one it was added with |
| WatchedList.Find | src/App.js:222-224 | `find` returns an entry iff the id is watched; that entry is in the list and has the id |
| WatchedList.FindFirst | src/App.js:222-224 | `find` returns the first entry with the id |
| WatchedList.WatchedUserRating | src/App.js:222-224 | A rating exists iff the movie is watched |
| WatchedList.WatchedUserRatingOfFirst | src/App.js:222-224 | `watchedUserRating` is the `userRating` of the first entry with that id |
| Selection.Toggle | src/App.js:26-28 | Null iff the clicked id is the current selection; otherwise that id |
| Selection.ClicksShowLast | src/App.js:26-28 | After any clicks the selection is null or the id clicked last |
| Selection.ToggleTwice | src/App.js:26-28 | Clicking the same id twice restores the selection iff it was null or that same id |
| Cast.WithProfession | src/App.js:312-313 | Keeps exactly the persons with the profession |
| Cast.Names | src/App.js:314 | The names, position by position |
| Cast.Credits | src/App.js:307-321 | The line is `''` while `persons` is absent |
| Cast.CreditsOfConcat | src/App.js:312-315 | The line for a concatenated person list is the two lines joined by ', ': order is kept |
| Cast.JoinConcat | src/App.js:315 | `join` of a concatenation is the two joins separated by the separator |
| Cast.Join | src/App.js:315 | `join(', ')`: `''` for no names, otherwise a line that begins with the first name |
| Cast.SplitJoin | src/App.js:315 | For one or more comma-free names, splitting the joined line at ', ' gives back the names |
| Cast.CreditsNames | src/App.js:307-321 | When at least one person has the profession and none of those has a comma in the name, the line reads back as their names, in their original order |
| Cast.NobodyGivesEmptyLine | src/App.js:308-315 | With no person of the profession the line is `''`, and reading it back gives `['']`, not an empty list |
| Cast.Actors | src/App.js:308-316 | `actors`: `''` without persons or without actors; otherwise it reads back as the actors' names when those are comma-free |
| Cast.Director | src/App.js:309-320 | `director`: the same, for the 'редакторы' profession |
| AppMain.App.constructor | src/App.js:17-21 | Starts with no selection and the list read from storage, which the persist effect writes back |
| AppMain.App.SelectMovie | src/App.js:26-28 | The selection becomes `Toggle(old, id)`: null iff `id` was selected |
| AppMain.App.CloseMovie | src/App.js:30-32 | The selection becomes null |
| AppMain.App.AddWatched | src/App.js:34-46 | The list becomes `Append(old, movie)` and the stored snapshot equals it |
| AppMain.App.DeleteWatched | src/App.js:40-46 | The list becomes `Delete(old, id)` and the stored snapshot equals it |
| Movies.IsTruthy | src/App.js:217 | `if(userRating)`: false for the initial `''` and for 0, true for any other rating |
| AppMain.RecordChange | src/App.js:216-219 | A change to a new rating extends the history. The truthy count goes up by one exactly when the new value is truthy |
| AppMain.MovieDetails.constructor | src/App.js:209-213 | The rating starts as `''`; the counter and the history start empty |
| AppMain.MovieDetails.SetUserRating | src/App.js:211-219 | Setting the same value changes nothing. A different value is recorded, and the counter grows by one iff it is truthy. So the counter always equals the number of changes to a truthy value |
| AppMain.MovieDetails.HandleAdd | src/App.js:227-240 | Appends `{id, title, poster, rating, userRating, runtime, countRatingDesitions}` built from the selection and the detail; the counter equals the truthy-change count. Then closes the selection and persists |
| AppV2.App.constructor | src/App-v2.js:15-20 | Empty watched list, no selection, the search state after mounting with `''` |
| AppV2.App.SelectMovie | src/App-v2.js:22-24 | The selection becomes `Toggle(old, id)` |
| AppV2.App.CloseMovie | src/App-v2.js:26-28 | The selection becomes null |
| AppV2.App.AddWatched | src/App-v2.js:30-32 | The list becomes `Append(old, movie)`; nothing is persisted |
| AppV2.App.DeleteWatched | src/App-v2.js:34-36 | The list becomes `Delete(old, id)` |
| AppV2.App.RunEffect | src/App-v2.js:38-89 | The inline effect makes `EffectStep`. A gated query does not touch the selection. Any other query resets the selection to null before the request starts |
| AppV2.App.SetQuery | src/App-v2.js:88 | Makes `QueryStep` and keeps the invariant. The selection is reset only when a search starts for a changed query |
| AppV2.App.Complete | src/App-v2.js:45-72 | Same classification as the hook: makes `CompleteStep`; `isLoading` is false on every exit; only the current request changes list or error |
| AppV2.MovieDetails.constructor | src/App-v2.js:227-229 | The rating starts as `''` |
| AppV2.MovieDetails.SetUserRating | src/App-v2.js:229 | The rating becomes the value set |
| AppV2.MovieDetails.HandleAdd | src/App-v2.js:236-248 | Appends `{id, title, poster, rating, userRating, runtime}` with no counter, then closes the selection |

## Left out

- `fetch`, HTTP, `res.json()` and the AbortController are not modelled. A request's end is an
  abstract `Outcome`; supersession is a stale token.
- SearchMachine.CompleteStep: a completion with a stale token counts as an AbortError.
  Modelled this way, rather than racing the abort against the settling response: either way
  the stale request does not change list or error.
- The `catch` also writes the error message to the console with `console.error`
  (src/useMovie.js:46, src/App-v2.js:67); console output is I/O and is not modelled.
- `total` is an integer or absent; JavaScript's NaN (also falsy) is not represented. `docs` is
  assumed present when `total` is truthy.
- The detail-fetch effect (src/App.js:242-270, src/App-v2.js:250-278) is network-only. The
  detail views are built with their detail record already loaded.
- The detail views are constructed once per selection. The source keeps the same
  `MovieDetails` instance (it has no `key`) when the selection moves from one id straight to
  another. Its rating and `countRef` then carry over; the model does not capture this.
- `localStorage` and JSON: the initial list is a constructor parameter. The persist effect
  is an abstract `stored` snapshot, not a serialised string. On a first visit the source
  reads `null` (`JSON.parse(null)`), which this model does not represent.
- The `document.title` effect, the Escape and Enter key listeners, and the search input's
  focus are DOM I/O.
- The summary's averages, `toFixed` and `Math.trunc` (floating point), and the premiere date
  formatting (`toLocaleDateString`) are not modelled.
- JSX rendering, the open/closed toggle of the boxes, the star-rating control and the API
  keys are not modelled.
