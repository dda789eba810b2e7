/**
 * The search-result state machine of the `useMovie` hook (and of its inline copy in
 * App-v2.js), as pure functions on a state value.
 *
 * The state holds what the hook exposes (`movies`, `error`, `isLoading`) and what React
 * keeps for it: the query the effect last ran for, the number of effect runs so far
 * (`run`), whether the latest run started a request and so registered the cleanup that
 * aborts it (`requested`), and the tokens of the requests still in flight (`pending`).
 * The request started by run `k` carries token `k`; each run's AbortController is the
 * token, and a request is aborted exactly when a later run has begun (or the consumer
 * has been unmounted).
 */
module SearchMachine {
  import opened Wrappers
  import opened Movies

  /** Queries shorter than this are gated: no request is made. */
  const MinQueryLength: nat := 3

  /**
   * JavaScript's `length` of a string: the number of UTF-16 code units, so a character
   * above U+FFFF is a surrogate pair and counts twice.
   */
  function Utf16Length(s: string): (n: nat)
    ensures |s| <= n <= 2 * |s|
    ensures (forall i :: 0 <= i < |s| ==> s[i] as int <= 0xFFFF) ==> n == |s|
    decreases |s|
  {
    if s == [] then 0 else (if s[0] as int > 0xFFFF then 2 else 1) + Utf16Length(s[1..])
  }

  /** The gate `query.length < 3`, on UTF-16 code units. */
  predicate IsShort(q: string) {
    Utf16Length(q) < MinQueryLength
  }

  /** One emoji and a letter: two characters, but three code units, so the query is searched. */
  lemma SurrogatePairCountsTwice()
    ensures |"\U{1F600}a"| == 2 && Utf16Length("\U{1F600}a") == 3
    ensures EffectStep(Init(), "\U{1F600}a").requested
  {
  }

  /** The error shown for a response whose status is not ok. */
  const ConnectionMessage: string := "Проверьте соединение с интернетом"

  /** The error shown for an ok response whose `total` is falsy. */
  const NotFoundMessage: string := "Фильм не найден"

  /** The `total` field of a search response: a number, or absent. */
  datatype Total = Missing | Count(n: int)

  /** `Boolean(data.total)`: false for an absent total and for zero. */
  function HasMatches(t: Total): (b: bool)
    ensures t.Missing? ==> !b
    ensures t == Count(0) ==> !b
    ensures t.Count? && t.n != 0 ==> b
  {
    t.Count? && t.n != 0
  }

  /** How one request ends, as seen by its `try`/`catch`. */
  datatype Outcome =
    | NotOk                                     // the response arrived and `res.ok` is false
    | Ok(total: Total, docs: seq<MovieSummary>) // the response arrived, was ok and its body parsed
    | Failed(message: string)                   // `fetch` or `res.json()` threw something other than an AbortError
    | Aborted                                   // the run's controller was aborted: an AbortError

  /** What the result pane shows: the list and the error message. */
  datatype Shown = Shown(movies: seq<MovieSummary>, error: string)

  datatype SearchState = SearchState(
    query: string,
    movies: seq<MovieSummary>,
    error: string,
    isLoading: bool,
    run: nat,
    requested: bool,
    pending: set<nat>)

  function ShownOf(s: SearchState): Shown {
    Shown(s.movies, s.error)
  }

  /** The state before the hook's first effect has run (the three `useState` initial values). */
  function Init(): (s: SearchState)
    ensures ShownOf(s) == Shown([], "") && !s.isLoading && s.pending == {}
  {
    SearchState("", [], "", false, 0, false, {})
  }

  /** The invariant every reachable state keeps. */
  predicate Valid(s: SearchState) {
    && (forall t :: t in s.pending ==> 1 <= t <= s.run)
    && (s.isLoading ==> s.pending != {})
  }

  /** A completion with token `t` belongs to the latest run, whose request has not been aborted. */
  predicate IsCurrent(s: SearchState, t: nat) {
    s.requested && t == s.run
  }

  /**
   * The effect body for a new query: the previous run's cleanup has aborted its request (the
   * run counter moves on), then either the length gate clears the list and the error, or
   * `fetchMovies` sets `isLoading` and clears the error before its first `await`.
   */
  function EffectStep(s: SearchState, q: string): (r: SearchState)
    ensures r.query == q && r.run == s.run + 1
    ensures r.requested <==> !IsShort(q)
    ensures IsShort(q) ==>
              ShownOf(r) == Shown([], "") && r.isLoading == s.isLoading && r.pending == s.pending
    ensures !IsShort(q) ==>
              r.isLoading && r.error == "" && r.movies == s.movies && r.pending == s.pending + {r.run}
    ensures Valid(s) ==> Valid(r) && forall t :: t in s.pending ==> !IsCurrent(r, t)
  {
    var run := s.run + 1;
    if IsShort(q) then
      s.(query := q, movies := [], error := "", run := run, requested := false)
    else
      s.(query := q, error := "", isLoading := true, run := run, requested := true,
         pending := s.pending + {run})
  }

  /** React re-runs the effect only when the `query` dependency is a different value. */
  function QueryStep(s: SearchState, q: string): (r: SearchState)
    ensures q == s.query ==> r == s
    ensures q != s.query ==> r == EffectStep(s, q)
  {
    if q == s.query then s else EffectStep(s, q)
  }

  /** The state the hook is in once mounted with its first query. */
  function Mounted(q: string): (s: SearchState)
    ensures Valid(s) && s.query == q
    ensures !s.requested ==> ShownOf(s) == Shown([], "") && !s.isLoading
  {
    EffectStep(Init(), q)
  }

  /**
   * The `try`/`catch` classification of an outcome, applied to what is shown: the bad-status
   * and no-match errors, the successful list, and the silent abort.
   */
  function Settle(v: Shown, o: Outcome): (r: Shown)
    ensures o.Aborted? ==> r == v
    ensures r.movies != v.movies ==> o.Ok? && HasMatches(o.total) && r.movies == o.docs
    ensures o.NotOk? ==> r == Shown(v.movies, ConnectionMessage)
    ensures o.Ok? && !HasMatches(o.total) ==> r == Shown(v.movies, NotFoundMessage)
    ensures o.Ok? && HasMatches(o.total) ==> r == Shown(o.docs, "")
    ensures o.Failed? ==> r == Shown(v.movies, o.message)
  {
    match o
    case NotOk => Shown(v.movies, ConnectionMessage)
    case Ok(total, docs) => if HasMatches(total) then Shown(docs, "") else Shown(v.movies, NotFoundMessage)
    case Failed(message) => Shown(v.movies, message)
    case Aborted => v
  }

  /**
   * The request with token `t` settles. A request that is no longer current has had its
   * controller aborted, so it ends in an AbortError whatever the network did. The `finally`
   * clears `isLoading` in every case.
   */
  function CompleteStep(s: SearchState, t: nat, o: Outcome): (r: SearchState)
    requires t in s.pending
    ensures !r.isLoading && r.pending == s.pending - {t}
    ensures r.query == s.query && r.run == s.run && r.requested == s.requested
    ensures IsCurrent(s, t) ==> ShownOf(r) == Settle(ShownOf(s), o)
    ensures !IsCurrent(s, t) ==> ShownOf(r) == ShownOf(s)
    ensures Valid(s) ==> Valid(r)
  {
    var v := Settle(ShownOf(s), if IsCurrent(s, t) then o else Aborted);
    s.(movies := v.movies, error := v.error, isLoading := false, pending := s.pending - {t})
  }

  /** Unmounting runs the latest cleanup: no request is current afterwards. */
  function UnmountStep(s: SearchState): (r: SearchState)
    ensures forall t :: !IsCurrent(r, t)
    ensures ShownOf(r) == ShownOf(s) && r.isLoading == s.isLoading && r.pending == s.pending
    ensures Valid(s) ==> Valid(r)
  {
    s.(requested := false)
  }

  /** The events that drive the machine. */
  datatype Event =
    | QueryChanged(query: string)
    | Completed(token: nat, outcome: Outcome)
    | Unmounted

  /** One event. A completion of a request that is not in flight cannot happen and is skipped. */
  function Step(s: SearchState, e: Event): SearchState {
    match e
    case QueryChanged(q) => QueryStep(s, q)
    case Completed(t, o) => if t in s.pending then CompleteStep(s, t, o) else s
    case Unmounted => UnmountStep(s)
  }

  /** A sequence of events, in order of arrival. */
  function Run(s: SearchState, events: seq<Event>): SearchState
    decreases |events|
  {
    if events == [] then s else Run(Step(s, events[0]), events[1..])
  }

  /** Every event sequence keeps the invariant. */
  lemma {:induction false} RunKeepsValid(s: SearchState, events: seq<Event>)
    requires Valid(s)
    ensures Valid(Run(s, events))
    decreases |events|
  {
    if events != [] {
      RunKeepsValid(Step(s, events[0]), events[1..]);
    }
  }

  /** `isLoading` is only ever true while some request is in flight. */
  lemma LoadingOnlyWhileInFlight(q: string, events: seq<Event>)
    ensures Run(Mounted(q), events).isLoading ==> Run(Mounted(q), events).pending != {}
  {
    RunKeepsValid(Mounted(q), events);
  }

  predicate OnlyCompletions(events: seq<Event>) {
    forall i :: 0 <= i < |events| ==> events[i].Completed?
  }

  /** The outcome of the first completion of token `t` in `events`, if any. */
  function FirstOutcome(events: seq<Event>, t: nat): Option<Outcome>
    decreases |events|
  {
    if events == [] then None
    else if events[0].Completed? && events[0].token == t then Some(events[0].outcome)
    else FirstOutcome(events[1..], t)
  }

  /**
   * While no new query arrives, only the current request can change what is shown, and only
   * by its own outcome: completions of superseded requests, in any number and any order,
   * leave the list and the error alone.
   */
  lemma {:induction false} OnlyCurrentRequestSettles(s: SearchState, events: seq<Event>)
    requires OnlyCompletions(events)
    ensures ShownOf(Run(s, events)) ==
              if s.requested && s.run in s.pending then
                match FirstOutcome(events, s.run)
                case None => ShownOf(s)
                case Some(o) => Settle(ShownOf(s), o)
              else ShownOf(s)
    decreases |events|
  {
    if events != [] {
      var e := events[0];
      var rest := events[1..];
      assert OnlyCompletions(rest) by {
        forall i | 0 <= i < |rest| ensures rest[i].Completed? {
          assert rest[i] == events[i + 1];
        }
      }
      assert e.Completed?;
      OnlyCurrentRequestSettles(Step(s, e), rest);
    }
  }

  /**
   * "The last query wins": after a new query, whatever completions arrive, the list and the
   * error depend only on that query and on the outcome of its own request. A gated query
   * leaves an empty list and no error; otherwise the previous list stays, with no error,
   * until the new request settles it.
   */
  lemma LastQueryWins(s: SearchState, q: string, events: seq<Event>)
    requires Valid(s) && q != s.query
    requires OnlyCompletions(events)
    ensures ShownOf(Run(QueryStep(s, q), events)) ==
              if IsShort(q) then Shown([], "")
              else match FirstOutcome(events, s.run + 1)
                   case None => Shown(s.movies, "")
                   case Some(o) => Settle(Shown(s.movies, ""), o)
  {
    var s1 := QueryStep(s, q);
    assert s1.run == s.run + 1;
    OnlyCurrentRequestSettles(s1, events);
  }

  /** After unmounting, no completion changes what is shown. */
  lemma NothingSettlesAfterUnmount(s: SearchState, events: seq<Event>)
    requires OnlyCompletions(events)
    ensures ShownOf(Run(UnmountStep(s), events)) == ShownOf(s)
  {
    OnlyCurrentRequestSettles(UnmountStep(s), events);
  }

  /**
   * A superseded request still runs its `finally`: when it settles it clears `isLoading`
   * although the request of the newer query is still in flight.
   */
  lemma SupersededRequestClearsLoading(s: SearchState, q1: string, q2: string)
    requires Valid(s) && q1 != s.query && q2 != q1
    requires !IsShort(q1) && !IsShort(q2)
    ensures var s1 := QueryStep(s, q1);
            var s2 := QueryStep(s1, q2);
            s2.isLoading && s1.run in s2.pending &&
            var s3 := CompleteStep(s2, s1.run, Aborted);
            !s3.isLoading && IsCurrent(s3, s2.run) && s2.run in s3.pending
  {
  }

  /**
   * Typing "ab" and then "iron" after mounting with the empty query: "ab" is gated, "iron"
   * starts request 3, and its one-match response becomes the list.
   */
  lemma TypingScenario(docs: seq<MovieSummary>)
    ensures var s := Run(Mounted(""), [QueryChanged("ab"), QueryChanged("iron")]);
            s.isLoading && s.error == "" && s.movies == [] && IsCurrent(s, 3) &&
            var f := Run(s, [Completed(3, Ok(Count(1), docs))]);
            ShownOf(f) == Shown(docs, "") && !f.isLoading && f.pending == {}
  {
  }
}
