/**
 * The movie detail screen's watch-list controls: the list-status button that
 * cycles a movie through the user's list, the star button that marks it as a
 * favourite, the initial button states derived from the user's three
 * sub-lists, the labels of the list-status button and the star rating row.
 *
 * Each gesture is described by a pure step function on the two button states
 * (what the screen shows next and which requests it sends to the user-list
 * endpoints); the view's `@State` fields live in the class MovieViewState,
 * whose methods update them step by step as the Swift code does.
 */
module MovieScreen {
  import opened Wrappers

  /** The list-status button's state. */
  datatype UserListState = NotInList | ToWatch | Watched {
    /** `UserListState.toggle()`: notInList -> toWatch -> watched -> notInList. */
    function Toggled(): UserListState {
      match this
      case NotInList => ToWatch
      case ToWatch => Watched
      case Watched => NotInList
    }
  }

  /** The star button's state. */
  datatype FavoriteState = NotFavorite | Favorite {
    /** `FavoriteState.toggle()`. */
    function Toggled(): FavoriteState {
      match this
      case NotFavorite => Favorite
      case Favorite => NotFavorite
    }
  }

  /** Both button states of the screen. */
  datatype Buttons = Buttons(list: UserListState, fav: FavoriteState)

  /** The requests the screen hands to the user view-model. */
  datatype Request =
    | Add(watched: bool, favourite: bool)     // addMovieToUserList
    | Update(watched: bool, favourite: bool)  // updateMovieInUserList
    | Delete                                  // deleteMovieFromUserList
    | Fetch(watched: bool, favourite: bool)   // getMoviesUserList

  /** The outcome of one gesture: the new button states and the requests sent, in order. */
  datatype Step = Step(buttons: Buttons, sent: seq<Request>)

  /** The client's policy: a favourite movie is a watched movie. */
  predicate Consistent(b: Buttons) {
    b.fav == Favorite ==> b.list == Watched
  }

  /** `updateUserListInViewModel`: the request chosen by the (new) list state. */
  function ListRequest(list: UserListState): Request {
    match list
    case NotInList => Delete
    case ToWatch => Add(false, false)
    case Watched => Update(true, false)
  }

  /** `toggleUserListState`: cycle the list state, clear the star unless now
      watched, then send the request the new list state calls for. */
  function CycleStep(b: Buttons): Step {
    var list := b.list.Toggled();
    var fav := if list == NotInList || list == ToWatch then NotFavorite else b.fav;
    Step(Buttons(list, fav), [ListRequest(list)])
  }

  /** `toggleFavoriteState` followed by `updateFavoriteInViewModel`: flip the
      star, add the movie (if not in the list) or update it, promote a new
      favourite to watched, then fetch the favourites sub-list. */
  function StarStep(b: Buttons): Step {
    var fav := b.fav.Toggled();
    var favoriteBool := fav == Favorite;
    var change := if b.list == NotInList then Add(true, favoriteBool) else Update(true, favoriteBool);
    var list := if fav == Favorite then Watched else b.list;
    Step(Buttons(list, fav), [change, Fetch(true, true)])
  }

  /** `updateButtonStates`: three lookups applied one after the other, each
      overwriting the states the previous one set. */
  function InitialButtons(movieId: string, toWatchIds: seq<string>, watchedIds: seq<string>,
                          favouriteIds: seq<string>, current: Buttons): Buttons
  {
    var afterToWatch := if movieId in toWatchIds then Buttons(ToWatch, NotFavorite) else current;
    var afterWatched := if movieId in watchedIds then Buttons(Watched, NotFavorite) else afterToWatch;
    if movieId in favouriteIds then Buttons(Watched, Favorite) else afterWatched
  }

  // ---------------------------------------------------------------------
  // Properties of the two toggles

  lemma ToggleCycles(s: UserListState, f: FavoriteState)
    ensures s.Toggled() != s && s.Toggled().Toggled() != s
    ensures s.Toggled().Toggled().Toggled() == s
    ensures f.Toggled() != f && f.Toggled().Toggled() == f
  {
  }

  // ---------------------------------------------------------------------
  // Properties of the cycle gesture

  /** The star is cleared when the movie leaves the list or goes back to
      to-watch, and kept when the movie becomes watched. */
  lemma CycleClearsStarUnlessWatched(b: Buttons)
    ensures var n := CycleStep(b).buttons;
      && n.list == b.list.Toggled()
      && (n.list != Watched ==> n.fav == NotFavorite)
      && (n.list == Watched ==> n.fav == b.fav)
  {
  }

  /** Exactly one request per cycle gesture, chosen by the new list state. */
  lemma CycleSendsOneRequest(b: Buttons)
    ensures var st := CycleStep(b);
      && |st.sent| == 1
      && (st.buttons.list == NotInList <==> st.sent[0] == Delete)
      && (st.buttons.list == ToWatch <==> st.sent[0] == Add(false, false))
      && (st.buttons.list == Watched <==> st.sent[0] == Update(true, false))
  {
  }

  /** Three cycle gestures from a movie not in the list walk it through the
      list and out again, sending add, update and delete in that order. */
  lemma ThreeCyclesReturn(fav: FavoriteState)
    ensures var s1 := CycleStep(Buttons(NotInList, fav));
            var s2 := CycleStep(s1.buttons);
            var s3 := CycleStep(s2.buttons);
      && s3.buttons == Buttons(NotInList, NotFavorite)
      && s1.sent + s2.sent + s3.sent == [Add(false, false), Update(true, false), Delete]
  {
  }

  // ---------------------------------------------------------------------
  // Properties of the star gesture

  /** The star gesture sends exactly one change, an add when the movie is not
      in the list and an update otherwise, always with watched = true and the
      new star state, followed by a fetch of the favourites sub-list. */
  lemma StarSendsOneChange(b: Buttons)
    ensures var st := StarStep(b);
            var isFav := st.buttons.fav == Favorite;
      && st.buttons.fav == b.fav.Toggled()
      && |st.sent| == 2 && st.sent[1] == Fetch(true, true)
      && (b.list == NotInList <==> st.sent[0] == Add(true, isFav))
      && (b.list != NotInList <==> st.sent[0] == Update(true, isFav))
  {
  }

  /** Turning the star on makes the movie watched; turning it off leaves the
      list state alone. */
  lemma StarPromotesToWatched(b: Buttons)
    ensures b.fav == NotFavorite ==> StarStep(b).buttons == Buttons(Watched, Favorite)
    ensures b.fav == Favorite ==> StarStep(b).buttons == Buttons(b.list, NotFavorite)
  {
  }

  // ---------------------------------------------------------------------
  // The "favourite implies watched" policy

  /** Both gestures establish the policy whatever state they start from:
      the cycle gesture clears the star unless the movie becomes watched, and
      the star gesture promotes a new favourite to watched. */
  lemma GesturesEstablishConsistent(b: Buttons)
    ensures Consistent(CycleStep(b).buttons)
    ensures Consistent(StarStep(b).buttons)
  {
  }

  /** The two gestures of the screen. */
  datatype Gesture = Cycle | Star

  /** The screen after a sequence of gestures. */
  function Run(b: Buttons, gestures: seq<Gesture>): Buttons
    decreases |gestures|
  {
    if gestures == [] then b
    else
      var next := if gestures[0] == Cycle then CycleStep(b) else StarStep(b);
      Run(next.buttons, gestures[1..])
  }

  /** Every state the gestures reach from a consistent screen is consistent. */
  lemma {:induction false} RunKeepsConsistent(b: Buttons, gestures: seq<Gesture>)
    requires Consistent(b)
    ensures Consistent(Run(b, gestures))
    decreases |gestures|
  {
    if gestures != [] {
      GesturesEstablishConsistent(b);
      var next := if gestures[0] == Cycle then CycleStep(b) else StarStep(b);
      RunKeepsConsistent(next.buttons, gestures[1..]);
    }
  }

  /** Conversely, every consistent state is reachable from the screen's
      initial state (not in the list, no star). */
  lemma ConsistentIsReachable(b: Buttons)
    requires Consistent(b)
    ensures exists gestures :: Run(Buttons(NotInList, NotFavorite), gestures) == b
  {
    var start := Buttons(NotInList, NotFavorite);
    match b
    case Buttons(NotInList, _) =>
      assert Run(start, []) == b;
    case Buttons(ToWatch, _) =>
      assert Run(start, [Cycle]) == Run(CycleStep(start).buttons, []) == b;
    case Buttons(Watched, NotFavorite) =>
      var one := CycleStep(start).buttons;
      assert Run(start, [Cycle, Cycle]) == Run(one, [Cycle]);
      assert Run(one, [Cycle]) == Run(CycleStep(one).buttons, []) == b;
    case Buttons(Watched, Favorite) =>
      assert Run(start, [Star]) == Run(StarStep(start).buttons, []) == b;
  }

  /** What a request asks the server to record for the movie: None for a
      removal, the two flags otherwise. */
  function Target(r: Request): Option<(bool, bool)> {
    match r
    case Add(w, f) => Some((w, f))
    case Update(w, f) => Some((w, f))
    case Delete => None
    case Fetch(_, _) => None
  }

  /** What the screen's buttons say the user's list holds for the movie. */
  function Shown(b: Buttons): Option<(bool, bool)> {
    match b.list
    case NotInList => None
    case ToWatch => Some((false, false))
    case Watched => Some((true, b.fav == Favorite))
  }

  /** From a consistent screen, the change request of either gesture asks the
      server for exactly what the screen shows afterwards. */
  lemma ChangeRequestMatchesScreen(b: Buttons)
    requires Consistent(b)
    ensures Target(CycleStep(b).sent[0]) == Shown(CycleStep(b).buttons)
    ensures Target(StarStep(b).sent[0]) == Shown(StarStep(b).buttons)
  {
  }

  /** Outside the policy the two disagree: un-starring a movie shown as
      favourite but not in the list adds it as watched while the screen keeps
      showing it as not in the list. */
  lemma ChangeRequestMismatchOutsidePolicy()
    ensures var b := Buttons(NotInList, Favorite);
      && !Consistent(b)
      && Target(StarStep(b).sent[0]) == Some((true, false))
      && Shown(StarStep(b).buttons) == None
  {
  }

  // ---------------------------------------------------------------------
  // Initial states

  /** Precedence of `updateButtonStates`: favourites, then watched, then
      to-watch; a movie in none of them keeps the current states. */
  lemma InitialButtonsPrecedence(movieId: string, toWatchIds: seq<string>, watchedIds: seq<string>,
                                 favouriteIds: seq<string>, current: Buttons)
    ensures var r := InitialButtons(movieId, toWatchIds, watchedIds, favouriteIds, current);
      && (movieId in favouriteIds ==> r == Buttons(Watched, Favorite))
      && (movieId !in favouriteIds && movieId in watchedIds ==> r == Buttons(Watched, NotFavorite))
      && (movieId !in favouriteIds && movieId !in watchedIds && movieId in toWatchIds ==>
            r == Buttons(ToWatch, NotFavorite))
      && (movieId !in favouriteIds && movieId !in watchedIds && movieId !in toWatchIds ==> r == current)
  {
  }

  /** The derived states are consistent whenever the movie is in some
      sub-list, and whenever the states they replace were. */
  lemma InitialButtonsConsistent(movieId: string, toWatchIds: seq<string>, watchedIds: seq<string>,
                                 favouriteIds: seq<string>, current: Buttons)
    requires Consistent(current) || movieId in toWatchIds + watchedIds + favouriteIds
    ensures Consistent(InitialButtons(movieId, toWatchIds, watchedIds, favouriteIds, current))
  {
  }

  // ---------------------------------------------------------------------
  // Labels

  /** `userListButtonText`. */
  function ButtonText(s: UserListState): string {
    match s
    case NotInList => "Add to List"
    case ToWatch => "To Watch"
    case Watched => "Watched"
  }

  /** `userListIcon`. */
  function ButtonIcon(s: UserListState): string {
    match s
    case NotInList => "plus.circle"
    case ToWatch => "clock"
    case Watched => "checkmark.circle"
  }

  datatype Color = Blue | Orange | Green | Yellow | Gray

  /** `userListButtonColor`. */
  function ButtonColor(s: UserListState): Color {
    match s
    case NotInList => Blue
    case ToWatch => Orange
    case Watched => Green
  }

  /** The star button's icon and `favoriteButtonColor`. */
  function StarIcon(f: FavoriteState): string {
    if f == Favorite then "star.fill" else "star"
  }

  function StarColor(f: FavoriteState): Color {
    if f == Favorite then Yellow else Gray
  }

  /** Each label alone tells the list states apart, and the star's icon and
      colour tell the favourite states apart. */
  lemma LabelsIdentifyState(s: UserListState, t: UserListState, f: FavoriteState, g: FavoriteState)
    ensures ButtonText(s) == ButtonText(t) <==> s == t
    ensures ButtonIcon(s) == ButtonIcon(t) <==> s == t
    ensures ButtonColor(s) == ButtonColor(t) <==> s == t
    ensures StarIcon(f) == StarIcon(g) <==> f == g
    ensures StarColor(f) == StarColor(g) <==> f == g
  {
  }

  // ---------------------------------------------------------------------
  // Star rating row

  /** `StarsView`: entry k - 1 says whether star k (k in 1..maximumRating) is
      filled. The Swift range `1..<maximumRating + 1` traps for a negative
      maximum, hence the precondition. */
  function Stars(vote: int, maximumRating: int): (r: seq<bool>)
    requires maximumRating >= 0
    ensures |r| == maximumRating
  {
    seq(maximumRating, i => i + 1 <= vote)
  }

  /** The number of filled stars. */
  function Filled(s: seq<bool>): nat {
    if s == [] then 0 else (if s[|s| - 1] then 1 else 0) + Filled(s[..|s| - 1])
  }

  /** The vote clamped to the rating scale. */
  function Clamp(vote: int, maximumRating: nat): nat {
    if vote < 0 then 0 else if vote > maximumRating then maximumRating else vote
  }

  /** The filled stars are exactly the first `Clamp(vote)` ones. */
  lemma {:induction false} StarsFillPrefix(vote: int, maximumRating: int)
    requires maximumRating >= 0
    ensures var r := Stars(vote, maximumRating);
      && Filled(r) == Clamp(vote, maximumRating)
      && forall i :: 0 <= i < maximumRating ==> (r[i] <==> i < Clamp(vote, maximumRating))
    decreases maximumRating
  {
    var r := Stars(vote, maximumRating);
    if maximumRating > 0 {
      StarsFillPrefix(vote, maximumRating - 1);
      assert r[..maximumRating - 1] == Stars(vote, maximumRating - 1);
    }
  }

  // ---------------------------------------------------------------------
  // The view's state, updated in place

  /** The `@State` fields `userListState` and `favoriteState` of `MovieView`. */
  class MovieViewState {
    const movieId: string
    var userListState: UserListState
    var favoriteState: FavoriteState

    function Current(): Buttons
      reads this
    {
      Buttons(userListState, favoriteState)
    }

    constructor (movieId: string)
      ensures this.movieId == movieId
      ensures Current() == Buttons(NotInList, NotFavorite)
    {
      this.movieId := movieId;
      userListState := NotInList;
      favoriteState := NotFavorite;
    }

    /** `updateUserListInViewModel`. */
    method UpdateUserListInViewModel() returns (r: Request)
      ensures userListState == NotInList ==> r == Delete
      ensures userListState == ToWatch ==> r == Add(false, false)
      ensures userListState == Watched ==> r == Update(true, false)
    {
      match userListState
      case NotInList => r := Delete;
      case ToWatch => r := Add(false, false);
      case Watched => r := Update(true, false);
    }

    /** `toggleUserListState`. */
    method ToggleUserListState() returns (sent: seq<Request>)
      modifies this
      ensures Step(Current(), sent) == CycleStep(old(Current()))
    {
      userListState := userListState.Toggled();
      if userListState == NotInList || userListState == ToWatch {
        favoriteState := NotFavorite;
      }
      var r := UpdateUserListInViewModel();
      sent := [r];
    }

    /** `updateFavoriteInViewModel`. */
    method UpdateFavoriteInViewModel() returns (sent: seq<Request>)
      modifies this
      ensures favoriteState == old(favoriteState)
      ensures userListState == (if favoriteState == Favorite then Watched else old(userListState))
      ensures var isFav := favoriteState == Favorite;
        sent == [if old(userListState) == NotInList then Add(true, isFav) else Update(true, isFav),
                 Fetch(true, true)]
    {
      var favoriteBool := false;
      if favoriteState == Favorite {
        favoriteBool := true;
      }
      if favoriteState == NotFavorite {
        favoriteBool := false;
      }
      var change: Request;
      if userListState == NotInList {
        change := Add(true, favoriteBool);
      } else {
        change := Update(true, favoriteBool);
      }
      if favoriteState == Favorite {
        userListState := Watched;
      }
      sent := [change, Fetch(true, true)];
    }

    /** `toggleFavoriteState`. */
    method ToggleFavoriteState() returns (sent: seq<Request>)
      modifies this
      ensures Step(Current(), sent) == StarStep(old(Current()))
    {
      favoriteState := favoriteState.Toggled();
      sent := UpdateFavoriteInViewModel();
    }

    /** `updateButtonStates`, with the three sub-lists' ids as inputs. */
    method UpdateButtonStates(toWatchIds: seq<string>, watchedIds: seq<string>, favouriteIds: seq<string>)
      modifies this
      ensures Current() == InitialButtons(movieId, toWatchIds, watchedIds, favouriteIds, old(Current()))
    {
      if movieId in toWatchIds {
        userListState := ToWatch;
        favoriteState := NotFavorite;
      }
      if movieId in watchedIds {
        userListState := Watched;
        favoriteState := NotFavorite;
      }
      if movieId in favouriteIds {
        userListState := Watched;
        favoriteState := Favorite;
      }
    }
  }
}
