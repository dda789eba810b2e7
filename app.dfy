/**
 * App.js: the root component's selection and watched-list state (its search state is the
 * `useMovie` hook, modelled in UseMovie), and the detail view's rating state with the
 * `countRef` counter that its "add to list" entry carries.
 */
module AppMain {
  import opened Wrappers
  import opened Movies
  import WatchedList
  import Selection
  import Seqs

  class App {
    var selectedId: Option<MovieId>
    var watched: seq<WatchedEntry>
    /** The 'watched' slot of local storage, as the persist effect last wrote it. */
    var stored: seq<WatchedEntry>

    /** Mounting with the list read from local storage; the persist effect writes it back. */
    constructor (initial: seq<WatchedEntry>)
      ensures selectedId == None && watched == initial && stored == initial
    {
      selectedId := None;
      watched := initial;
      stored := watched;
    }

    /** `handleSelectedMovie`. */
    method SelectMovie(id: MovieId)
      modifies this`selectedId
      ensures selectedId == Selection.Toggle(old(selectedId), id)
      ensures selectedId == None <==> old(selectedId) == Some(id)
    {
      selectedId := if selectedId.Some? && id == selectedId.value then None else Some(id);
    }

    /** `handleCloseMovie`. */
    method CloseMovie()
      modifies this`selectedId
      ensures selectedId == None
    {
      selectedId := None;
    }

    /** `handleWatched`, then the persist effect. */
    method AddWatched(movie: WatchedEntry)
      modifies this`watched, this`stored
      ensures watched == WatchedList.Append(old(watched), movie) && stored == watched
    {
      watched := watched + [movie];
      stored := watched;
    }

    /** `handleDeleteWatched`, then the persist effect. */
    method DeleteWatched(id: MovieId)
      modifies this`watched, this`stored
      ensures watched == WatchedList.Delete(old(watched), id) && stored == watched
    {
      watched := Seqs.Filter(watched, (movie: WatchedEntry) => movie.id != id);
      stored := watched;
    }
  }

  /** How many values of a rating history are truthy. */
  function TruthyChanges(changes: seq<UserRating>): nat {
    |Seqs.Filter(changes, IsTruthy)|
  }

  /** The values a rating state took, one per change: each differs from the one before it. */
  predicate IsChangeHistory(changes: seq<UserRating>) {
    && (changes != [] ==> changes[0] != Unrated)
    && (forall i :: 0 < i < |changes| ==> changes[i] != changes[i - 1])
  }

  /** The rating state after a history of changes. */
  function Latest(changes: seq<UserRating>): UserRating {
    if changes == [] then Unrated else changes[|changes| - 1]
  }

  /**
   * A change to a new value extends the history: that value is now the latest, and the
   * count of truthy values goes up by one exactly when it is truthy.
   */
  lemma RecordChange(changes: seq<UserRating>, r: UserRating)
    requires IsChangeHistory(changes) && r != Latest(changes)
    ensures IsChangeHistory(changes + [r]) && Latest(changes + [r]) == r
    ensures TruthyChanges(changes + [r]) == TruthyChanges(changes) + if IsTruthy(r) then 1 else 0
  {
    var after := changes + [r];
    Seqs.FilterConcat(changes, [r], IsTruthy);
    assert [r][1..] == [];
    assert Seqs.Filter([r], IsTruthy) == if IsTruthy(r) then [r] else [];
    forall i | 0 < i < |after| ensures after[i] != after[i - 1] {
      if i < |changes| {
        assert after[i] == changes[i] && after[i - 1] == changes[i - 1];
      } else {
        assert after[i - 1] == changes[i - 1] == Latest(changes);
      }
    }
  }

  /** The detail view of App.js for one selected movie whose detail record has loaded. */
  class MovieDetails {
    const selectedId: MovieId
    const movie: MovieDetail
    var userRating: UserRating
    /** `countRef.current`. */
    var countRef: nat
    /** Every value `userRating` has changed to, in order. */
    ghost var changes: seq<UserRating>

    /** `countRef` counts the changes of `userRating` to a truthy value. */
    ghost predicate Valid()
      reads this
    {
      IsChangeHistory(changes) && userRating == Latest(changes) && countRef == TruthyChanges(changes)
    }

    constructor (selectedId: MovieId, movie: MovieDetail)
      ensures Valid() && this.selectedId == selectedId && this.movie == movie
      ensures userRating == Unrated && countRef == 0 && changes == []
    {
      this.selectedId := selectedId;
      this.movie := movie;
      userRating := Unrated;
      countRef := 0;
      changes := [];
    }

    /**
     * `setUserRating` from the star control, then the effect on `[userRating]`. Setting the
     * value the state already has does not re-render, so the effect does not run.
     */
    method SetUserRating(r: UserRating)
      requires Valid()
      modifies this`userRating, this`countRef, this`changes
      ensures Valid() && userRating == r
      ensures changes == if r == old(userRating) then old(changes) else old(changes) + [r]
      ensures countRef == old(countRef) + if r != old(userRating) && IsTruthy(r) then 1 else 0
    {
      if r == userRating {
        return;
      }
      RecordChange(changes, r);
      userRating := r;
      changes := changes + [r];
      if IsTruthy(userRating) {
        countRef := countRef + 1;
      }
    }

    /** `handleAdd`: the new entry goes to the root's list, then the detail view closes. */
    method HandleAdd(app: App)
      requires Valid()
      modifies app`watched, app`stored, app`selectedId
      ensures app.watched ==
                WatchedList.Append(old(app.watched), WatchedList.NewEntry(selectedId, movie, userRating, Some(countRef)))
      ensures app.watched[|old(app.watched)|].countRatingDecisions == Some(TruthyChanges(changes))
      ensures app.stored == app.watched && app.selectedId == None
    {
      var newMovie := WatchedList.NewEntry(selectedId, movie, userRating, Some(countRef));
      app.AddWatched(newMovie);
      app.CloseMovie();
    }
  }
}
