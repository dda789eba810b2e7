/** The selected movie id (`selectedId`, `null` when no detail view is open). */
module Selection {
  import opened Wrappers
  import opened Movies

  /** `handleSelectedMovie`: clicking the selected movie closes it, any other opens that one. */
  function Toggle(current: Option<MovieId>, id: MovieId): (r: Option<MovieId>)
    ensures r == None <==> current == Some(id)
    ensures r != None ==> r == Some(id)
  {
    if current == Some(id) then None else Some(id)
  }

  /** The selection after a sequence of clicks on result items. */
  function Clicks(current: Option<MovieId>, ids: seq<MovieId>): Option<MovieId>
    decreases |ids|
  {
    if ids == [] then current else Clicks(Toggle(current, ids[0]), ids[1..])
  }

  /** After any clicks the detail view is closed or shows the movie clicked last. */
  lemma {:induction false} ClicksShowLast(current: Option<MovieId>, ids: seq<MovieId>)
    requires ids != []
    ensures Clicks(current, ids) == None || Clicks(current, ids) == Some(ids[|ids| - 1])
    decreases |ids|
  {
    if |ids| > 1 {
      ClicksShowLast(Toggle(current, ids[0]), ids[1..]);
    }
  }

  /** Clicking the same movie twice restores the selection exactly when it was that movie or none. */
  lemma ToggleTwice(current: Option<MovieId>, id: MovieId)
    ensures Toggle(Toggle(current, id), id) == current <==> current == None || current == Some(id)
  {
  }
}
