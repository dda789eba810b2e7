/**
 * App-v2.js: the root component with the search effect written inline (the same state
 * machine as the `useMovie` hook, plus closing the detail view when a search starts), its
 * selection and watched-list state (never persisted), and the detail view's rating state.
 */
module AppV2 {
  import opened Wrappers
  import opened Movies
  import opened SearchMachine
  import WatchedList
  import Selection
  import Seqs

  class App {
    var query: string
    var movies: seq<MovieSummary>
    var error: string
    var isLoading: bool
    var run: nat
    var requested: bool
    var pending: set<nat>
    var selectedId: Option<MovieId>
    var watched: seq<WatchedEntry>

    /** The search fields as a state of the machine. */
    function State(): SearchState
      reads this
    {
      SearchState(query, movies, error, isLoading, run, requested, pending)
    }

    ghost predicate Valid()
      reads this
    {
      SearchMachine.Valid(State())
    }

    /** Mounting: the initial state values, then the effect for the empty query. */
    constructor ()
      ensures Valid() && State() == Mounted("")
      ensures selectedId == None && watched == []
    {
      query, movies, error, isLoading := "", [], "", false;
      run, requested, pending := 0, false, {};
      selectedId, watched := None, [];
      new;
      var _ := RunEffect("");
    }

    /** `handleSelectedMovie`. */
    method SelectMovie(id: MovieId)
      modifies this`selectedId
      ensures selectedId == Selection.Toggle(old(selectedId), id)
      ensures selectedId == None <==> old(selectedId) == Some(id)
    {
      selectedId := if selectedId.Some? && id == selectedId.value then None else Some(id);
    }

    /** `handleCloseMovie`. */
    method CloseMovie()
      modifies this`selectedId
      ensures selectedId == None
    {
      selectedId := None;
    }

    /** `handleWatched`. */
    method AddWatched(movie: WatchedEntry)
      modifies this`watched
      ensures watched == WatchedList.Append(old(watched), movie)
    {
      watched := watched + [movie];
    }

    /** `handleDeleteWatched`. */
    method DeleteWatched(id: MovieId)
      modifies this`watched
      ensures watched == WatchedList.Delete(old(watched), id)
    {
      watched := Seqs.Filter(watched, (movie: WatchedEntry) => movie.id != id);
    }

    /**
     * The search effect body. The previous run's cleanup has aborted its request; a gated
     * query clears the list and the error and leaves the selection alone, any other closes
     * the detail view and starts a request.
     */
    method RunEffect(q: string) returns (token: Option<nat>)
      modifies this`query, this`movies, this`error, this`isLoading, this`run, this`requested,
               this`pending, this`selectedId
      ensures State() == EffectStep(old(State()), q)
      ensures selectedId == if !IsShort(q) then None else old(selectedId)
      ensures token.Some? <==> !IsShort(q)
      ensures token.Some? ==> token.value == run && token.value in pending
    {
      query := q;
      run := run + 1;
      if IsShort(q) {
        movies := [];
        error := "";
        requested := false;
        token := None;
        return;
      }
      CloseMovie();
      // fetchMovies, up to its first await
      isLoading := true;
      error := "";
      requested := true;
      pending := pending + {run};
      token := Some(run);
    }

    /** The query changes: the effect re-runs only for a value different from the last one. */
    method SetQuery(q: string) returns (token: Option<nat>)
      requires Valid()
      modifies this`query, this`movies, this`error, this`isLoading, this`run, this`requested,
               this`pending, this`selectedId
      ensures Valid() && State() == QueryStep(old(State()), q)
      ensures selectedId == if q != old(query) && !IsShort(q) then None else old(selectedId)
      ensures token.Some? ==> isLoading && error == "" && selectedId == None && IsCurrent(State(), token.value)
    {
      if q == query {
        token := None;
        return;
      }
      token := RunEffect(q);
    }

    /** The request with `token` settles: the `try` body or the `catch`, then the `finally`. */
    method Complete(token: nat, outcome: Outcome)
      requires Valid() && token in pending
      modifies this`movies, this`error, this`isLoading, this`pending
      ensures Valid() && State() == CompleteStep(old(State()), token, outcome)
      ensures !isLoading
      ensures !IsCurrent(old(State()), token) ==> movies == old(movies) && error == old(error)
    {
      // an aborted controller makes its request end in an AbortError
      var effective := if requested && token == run then outcome else Aborted;
      match effective {
        case NotOk =>
          error := ConnectionMessage;
        case Ok(total, docs) =>
          if HasMatches(total) {
            movies := docs;
            error := "";
          } else {
            error := NotFoundMessage;
          }
        case Failed(message) =>
          error := message;
        case Aborted =>
      }
      isLoading := false;
      pending := pending - {token};
    }
  }

  /** The detail view of App-v2.js for one selected movie whose detail record has loaded. */
  class MovieDetails {
    const selectedId: MovieId
    const movie: MovieDetail
    var userRating: UserRating

    constructor (selectedId: MovieId, movie: MovieDetail)
      ensures this.selectedId == selectedId && this.movie == movie && userRating == Unrated
    {
      this.selectedId := selectedId;
      this.movie := movie;
      userRating := Unrated;
    }

    /** `setUserRating` from the star control. */
    method SetUserRating(r: UserRating)
      modifies this`userRating
      ensures userRating == r
    {
      userRating := r;
    }

    /** `handleAdd`: an entry without a counter goes to the root's list, then the detail view closes. */
    method HandleAdd(app: App)
      modifies app`watched, app`selectedId
      ensures app.watched == WatchedList.Append(old(app.watched), WatchedList.NewEntry(selectedId, movie, userRating, None))
      ensures app.watched[|old(app.watched)|].countRatingDecisions == None
      ensures app.selectedId == None
    {
      var newMovie := WatchedList.NewEntry(selectedId, movie, userRating, None);
      app.AddWatched(newMovie);
      app.CloseMovie();
    }
  }
}
