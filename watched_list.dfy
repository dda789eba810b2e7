/**
 * The watched list and the updaters App.js and App-v2.js apply to it: append with
 * `[...watched, movie]`, delete with `filter`, the `isWatched` membership test, the
 * `watchedUserRating` lookup and the entry that "add to list" builds.
 */
module WatchedList {
  import opened Wrappers
  import opened Movies
  import Seqs

  /** `watched.map((movie) => movie.id)`. */
  function Ids(watched: seq<WatchedEntry>): (ids: seq<MovieId>)
    ensures |ids| == |watched|
    ensures forall i :: 0 <= i < |watched| ==> ids[i] == watched[i].id
  {
    seq(|watched|, i requires 0 <= i < |watched| => watched[i].id)
  }

  /** `isWatched`: `Ids(watched).includes(id)`. */
  function IsWatched(watched: seq<WatchedEntry>, id: MovieId): (b: bool)
    ensures b <==> exists i :: 0 <= i < |watched| && watched[i].id == id
  {
    var ids := Ids(watched);
    assert forall i :: 0 <= i < |watched| ==> ids[i] == watched[i].id;
    id in ids
  }

  /** `handleWatched`: the new movie goes last, after every earlier entry. */
  function Append(watched: seq<WatchedEntry>, movie: WatchedEntry): (r: seq<WatchedEntry>)
    ensures |r| == |watched| + 1
    ensures r[..|watched|] == watched && r[|watched|] == movie
    ensures forall id :: IsWatched(r, id) <==> IsWatched(watched, id) || id == movie.id
  {
    var r := watched + [movie];
    assert forall i :: 0 <= i < |watched| ==> r[i] == watched[i];
    r
  }

  /** `handleDeleteWatched`: `watched.filter((movie) => movie.id !== id)`. */
  function Delete(watched: seq<WatchedEntry>, id: MovieId): (r: seq<WatchedEntry>)
    ensures |r| <= |watched|
    ensures forall e :: e in r <==> e in watched && e.id != id
    ensures !IsWatched(r, id)
  {
    var r := Seqs.Filter(watched, (e: WatchedEntry) => e.id != id);
    assert forall i :: 0 <= i < |r| ==> r[i] in r;
    r
  }

  /** How many entries carry `id`. */
  function Occurrences(watched: seq<WatchedEntry>, id: MovieId): nat {
    |Seqs.Filter(watched, (e: WatchedEntry) => e.id == id)|
  }

  /** Deleting keeps the order: it distributes over concatenation. */
  lemma DeleteKeepsOrder(a: seq<WatchedEntry>, b: seq<WatchedEntry>, id: MovieId)
    ensures Delete(a + b, id) == Delete(a, id) + Delete(b, id)
  {
    Seqs.FilterConcat(a, b, (e: WatchedEntry) => e.id != id);
  }

  /** Deleting an id that is not in the list changes nothing. */
  lemma DeleteAbsent(watched: seq<WatchedEntry>, id: MovieId)
    requires !IsWatched(watched, id)
    ensures Delete(watched, id) == watched
  {
    Seqs.FilterAllKept(watched, (e: WatchedEntry) => e.id != id);
  }

  /** Deleting the same id twice is deleting it once. */
  lemma DeleteIdempotent(watched: seq<WatchedEntry>, id: MovieId)
    ensures Delete(Delete(watched, id), id) == Delete(watched, id)
  {
    Seqs.FilterIdempotent(watched, (e: WatchedEntry) => e.id != id);
  }

  /** Every entry with the id goes, however many there are; all others stay. */
  lemma DeleteRemovesEvery(watched: seq<WatchedEntry>, id: MovieId)
    ensures |Delete(watched, id)| == |watched| - Occurrences(watched, id)
  {
    Seqs.FilterSplitsLength(watched, (e: WatchedEntry) => e.id != id, (e: WatchedEntry) => e.id == id);
  }

  /** Deleting two ids gives the same list in either order. */
  lemma DeleteCommutes(watched: seq<WatchedEntry>, a: MovieId, b: MovieId)
    ensures Delete(Delete(watched, a), b) == Delete(Delete(watched, b), a)
  {
    Seqs.FilterCommutes(watched, (e: WatchedEntry) => e.id != a, (e: WatchedEntry) => e.id != b);
  }

  /** Adding a movie whose id is not yet in the list and deleting that id restores the list. */
  lemma AppendThenDelete(watched: seq<WatchedEntry>, movie: WatchedEntry)
    requires !IsWatched(watched, movie.id)
    ensures Delete(Append(watched, movie), movie.id) == watched
  {
    DeleteKeepsOrder(watched, [movie], movie.id);
    DeleteAbsent(watched, movie.id);
    assert Delete([movie], movie.id) == [] by {
      assert movie.id == movie.id;
    }
  }

  /** `watched.find((movie) => movie.id === id)`. */
  function Find(watched: seq<WatchedEntry>, id: MovieId): (r: Option<WatchedEntry>)
    ensures r.Some? <==> IsWatched(watched, id)
    ensures r.Some? ==> r.value in watched && r.value.id == id
    decreases |watched|
  {
    if watched == [] then None
    else if watched[0].id == id then Some(watched[0])
    else
      var r := Find(watched[1..], id);
      assert forall i :: 1 <= i < |watched| ==> watched[i] == watched[1..][i - 1];
      r
  }

  /** `find` returns the first entry with the id. */
  lemma {:induction false} FindFirst(watched: seq<WatchedEntry>, id: MovieId, i: nat)
    requires i < |watched| && watched[i].id == id
    requires forall j :: 0 <= j < i ==> watched[j].id != id
    ensures Find(watched, id) == Some(watched[i])
    decreases i
  {
    if i > 0 {
      FindFirst(watched[1..], id, i - 1);
    }
  }

  /** `watchedUserRating`: the rating of the first entry with the id, absent when there is none. */
  function WatchedUserRating(watched: seq<WatchedEntry>, id: MovieId): (r: Option<UserRating>)
    ensures r.Some? <==> IsWatched(watched, id)
  {
    match Find(watched, id)
    case None => None
    case Some(e) => Some(e.userRating)
  }

  /** The rating shown for a watched movie is the one stored with its first entry. */
  lemma WatchedUserRatingOfFirst(watched: seq<WatchedEntry>, i: nat)
    requires i < |watched|
    requires forall j :: 0 <= j < i ==> watched[j].id != watched[i].id
    ensures WatchedUserRating(watched, watched[i].id) == Some(watched[i].userRating)
  {
    FindFirst(watched, watched[i].id, i);
  }

  /**
   * The entry `handleAdd` builds from the selected id, the loaded detail record and the
   * user's rating; `counter` is `countRef.current` in App.js and absent in App-v2.js.
   */
  function NewEntry(id: MovieId, movie: MovieDetail, userRating: UserRating, counter: Option<nat>): (e: WatchedEntry)
    ensures e.id == id && e.userRating == userRating && e.countRatingDecisions == counter
    ensures e.title == movie.name && e.poster == movie.posterUrl
    ensures e.rating == movie.ratingKp && e.runtime == movie.movieLength
  {
    WatchedEntry(id, movie.name, movie.posterUrl, movie.ratingKp, userRating, movie.movieLength, counter)
  }

  /**
   * Adding a movie that is not yet watched: the detail view then finds it watched, with the
   * rating it was added with.
   */
  lemma AddedEntryIsFound(watched: seq<WatchedEntry>, id: MovieId, movie: MovieDetail,
                          userRating: UserRating, counter: Option<nat>)
    requires !IsWatched(watched, id)
    ensures var after := Append(watched, NewEntry(id, movie, userRating, counter));
            IsWatched(after, id) && WatchedUserRating(after, id) == Some(userRating)
  {
    var after := Append(watched, NewEntry(id, movie, userRating, counter));
    assert after[|watched|].id == id;
    forall j | 0 <= j < |watched| ensures after[j].id != id {
      assert after[j] == watched[j];
    }
    FindFirst(after, id, |watched|);
  }
}
