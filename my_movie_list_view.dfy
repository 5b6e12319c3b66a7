/**
 * The "My List" screen: a two-page picker (to watch / watched), a star button
 * that narrows the watched page to favourites, and the grid that shows one of
 * the user's three sub-lists.
 */
module ListScreen {
  import opened Wrappers

  /** The picker's filter (`MovieFilter`). */
  datatype MovieFilter = ToWatchFilter | WatchedFilter

  /** The three sub-lists the user view-model holds. */
  datatype Collection = ToWatchMovies | WatchedMovies | FavouriteMovies

  /** `MovieGrid`'s if / else-if chain: None when no branch applies and the
      grid is empty. */
  function GridCollection(filter: MovieFilter, favoriteFilterActive: bool): Option<Collection> {
    if filter == ToWatchFilter then Some(ToWatchMovies)
    else if filter == WatchedFilter && !favoriteFilterActive then Some(WatchedMovies)
    else if favoriteFilterActive then Some(FavouriteMovies)
    else None
  }

  /** The grid always shows a sub-list: the to-watch page ignores the star,
      the watched page shows watched movies or, with the star on, favourites. */
  lemma GridChoice(filter: MovieFilter, favoriteFilterActive: bool)
    ensures GridCollection(filter, favoriteFilterActive).Some?
    ensures filter == ToWatchFilter ==> GridCollection(filter, favoriteFilterActive) == Some(ToWatchMovies)
    ensures filter == WatchedFilter ==>
      GridCollection(filter, favoriteFilterActive) ==
        Some(if favoriteFilterActive then FavouriteMovies else WatchedMovies)
  {
  }

  /** The (watched, favourite) flags under which a sub-list is fetched. */
  function FetchFlags(c: Collection): (bool, bool) {
    match c
    case ToWatchMovies => (false, false)
    case WatchedMovies => (true, false)
    case FavouriteMovies => (true, true)
  }

  /** `onAppear`: the three sub-lists, in the order they are requested. */
  const InitialFetches: seq<(bool, bool)> := [(false, false), (true, false), (true, true)]

  /** The screen requests every sub-list a grid can show, each one once. */
  lemma InitialFetchesCoverGrids(filter: MovieFilter, favoriteFilterActive: bool)
    ensures FetchFlags(GridCollection(filter, favoriteFilterActive).value) in InitialFetches
    ensures forall i, j :: 0 <= i < j < |InitialFetches| ==> InitialFetches[i] != InitialFetches[j]
  {
  }

  /** The screen's `@State` fields. */
  class MyMovieListState {
    var selectedFilter: MovieFilter
    var isFavoriteFilterActive: bool
    var watched: bool

    /** `watched` mirrors the selected page. */
    predicate Valid()
      reads this
    {
      watched == (selectedFilter == WatchedFilter)
    }

    constructor ()
      ensures Valid()
      ensures selectedFilter == ToWatchFilter && !isFavoriteFilterActive && !watched
    {
      selectedFilter := ToWatchFilter;
      isFavoriteFilterActive := false;
      watched := false;
    }

    /** The star button is on screen only on the watched page. */
    predicate FavoriteButtonShown()
      reads this
    {
      selectedFilter == WatchedFilter
    }

    /** The picker or a swipe selects a page; `onChange` runs only when the
        selection actually changes. */
    method SelectFilter(newFilter: MovieFilter)
      modifies this
      ensures selectedFilter == newFilter
      ensures old(selectedFilter) != newFilter ==> watched == (newFilter == WatchedFilter)
      ensures old(selectedFilter) == newFilter ==> watched == old(watched)
      ensures isFavoriteFilterActive == old(isFavoriteFilterActive)
      ensures old(Valid()) ==> Valid()
    {
      if newFilter != selectedFilter {
        selectedFilter := newFilter;
        watched := newFilter == WatchedFilter;
      }
    }

    /** A tap on the star button, which exists only on the watched page. */
    method TapFavoriteFilter()
      requires FavoriteButtonShown()
      modifies this`isFavoriteFilterActive
      ensures isFavoriteFilterActive == !old(isFavoriteFilterActive)
    {
      isFavoriteFilterActive := !isFavoriteFilterActive;
    }

    /** The collection the visible page shows. */
    method VisibleCollection() returns (c: Collection)
      ensures selectedFilter == ToWatchFilter ==> c == ToWatchMovies
      ensures selectedFilter == WatchedFilter ==> c == (if isFavoriteFilterActive then FavouriteMovies else WatchedMovies)
    {
      GridChoice(selectedFilter, isFavoriteFilterActive);
      c := GridCollection(selectedFilter, isFavoriteFilterActive).value;
    }
  }
}
