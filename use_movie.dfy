/**
 * The `useMovie` hook as an object: its three state variables, the bookkeeping React keeps
 * for its effect, and one method per event that drives the effect. Each method changes
 * the fields in the order the hook's setters run and is proved to make the step that
 * SearchMachine specifies.
 */
module UseMovie {
  import opened Wrappers
  import opened Movies
  import opened SearchMachine

  class MovieSearch {
    var query: string
    var movies: seq<MovieSummary>
    var error: string
    var isLoading: bool
    var run: nat
    var requested: bool
    var pending: set<nat>

    /** The fields as a state of the machine. */
    function State(): SearchState
      reads this
    {
      SearchState(query, movies, error, isLoading, run, requested, pending)
    }

    ghost predicate Valid()
      reads this
    {
      SearchMachine.Valid(State())
    }

    /** Mounting: the `useState` initial values, then the effect for the first query. */
    constructor (initialQuery: string)
      ensures Valid() && State() == Mounted(initialQuery)
    {
      query, movies, error, isLoading := "", [], "", false;
      run, requested, pending := 0, false, {};
      new;
      var _ := RunEffect(initialQuery);
    }

    /**
     * The effect body. The cleanup of the previous run (if it started a request) has already
     * aborted that run's controller; the run counter moving on is that abort. Returns the
     * token of the request it starts, if it starts one.
     */
    method RunEffect(q: string) returns (token: Option<nat>)
      modifies this
      ensures State() == EffectStep(old(State()), q)
      ensures token.Some? <==> !IsShort(q)
      ensures token.Some? ==> token.value == run && token.value in pending
    {
      query := q;
      run := run + 1;
      if IsShort(q) {
        movies := [];
        error := "";
        requested := false;
        token := None;
        return;
      }
      // fetchMovies, up to its first await
      isLoading := true;
      error := "";
      requested := true;
      pending := pending + {run};
      token := Some(run);
    }

    /** The query changes: the effect re-runs only for a value different from the last one. */
    method SetQuery(q: string) returns (token: Option<nat>)
      requires Valid()
      modifies this
      ensures Valid() && State() == QueryStep(old(State()), q)
      ensures q != old(query) && IsShort(q) ==> movies == [] && error == "" && token == None
      ensures token.Some? ==> isLoading && error == "" && movies == old(movies) && IsCurrent(State(), token.value)
      ensures forall t :: t in old(pending) && q != old(query) ==> !IsCurrent(State(), t)
    {
      if q == query {
        token := None;
        return;
      }
      token := RunEffect(q);
    }

    /**
     * The request with `token` settles with `outcome`: the `try` body or the `catch` (which
     * ignores an AbortError), then the `finally`.
     */
    method Complete(token: nat, outcome: Outcome)
      requires Valid() && token in pending
      modifies this
      ensures Valid() && State() == CompleteStep(old(State()), token, outcome)
      ensures !isLoading
      ensures !IsCurrent(old(State()), token) ==> movies == old(movies) && error == old(error)
    {
      // an aborted controller makes its request end in an AbortError
      var effective := if requested && token == run then outcome else Aborted;
      match effective {
        case NotOk =>
          error := ConnectionMessage;
        case Ok(total, docs) =>
          if HasMatches(total) {
            movies := docs;
            error := "";
          } else {
            error := NotFoundMessage;
          }
        case Failed(message) =>
          error := message;
        case Aborted =>
      }
      isLoading := false;
      pending := pending - {token};
    }

    /** Unmounting runs the latest cleanup, which aborts the request in flight. */
    method Unmount()
      requires Valid()
      modifies this
      ensures Valid() && State() == UnmountStep(old(State()))
    {
      if requested {
        requested := false;
      }
    }
  }
}
