/**
 * The user view-model of the iOS client: the local copy of the user's movie
 * list and reviews, and the flags the screens observe (`isLoading`,
 * `successMessage`, `errorMessage`).
 *
 * Every operation has a start phase, run when the screen calls it, and a
 * completion phase, run when URLSession calls back. Here the callback becomes
 * a second method that receives the transfer's outcome as an input, so an
 * asynchronous request is a start followed, later, by its completion. Each
 * phase is described by a function on the value `State`; the class
 * `UserViewModel` holds the same fields and updates them in place.
 */
module UserApi {
  import opened Wrappers

  /** The fields of a list entry the code reads or writes. All are optional,
      as decoded entries may lack any of them. */
  datatype ListedMovie = ListedMovie(
    id: Option<string>, title: Option<string>, poster: Option<string>,
    watched: Option<bool>, favourite: Option<bool>)

  /** The signed-in user. */
  datatype User = User(id: string, username: string)

  /** A review as `addReview` records it locally. */
  datatype Review = Review(title: string, content: string, vote: int, user: User)

  /** The `{message?, error?}` envelope (`APIResponse`). */
  datatype Envelope = Envelope(message: Option<string>, error: Option<string>)

  /** What `JSONDecoder` makes of the body: a value, or a failure with its description. */
  datatype Decoding<T> = Parsed(value: T) | Malformed(reason: string)

  /** What URLSession hands the completion handler: an error (with its
      `localizedDescription`), no data, or a body. */
  datatype Transfer<T> = Failed(reason: string) | NoData | Data(body: Decoding<T>)

  /** The observable state of the view-model. */
  datatype State = State(
    movies: seq<ListedMovie>, reviews: seq<Review>, user: Option<User>,
    successMessage: Option<string>, errorMessage: Option<string>, isLoading: bool)

  // ---------------------------------------------------------------------
  // Request construction

  /** Swift's `String(_: Bool)`. */
  function BoolText(b: bool): string {
    if b then "true" else "false"
  }

  const AddPath := "user/add_movie_to_user_list"
  const UpdatePath := "user/update_movie_in_user_list"

  function DeletePath(userId: string, movieId: string): string {
    "user/delete_movie_from_user_list/" + userId + "/" + movieId
  }

  function ListPath(userId: string, watched: bool, favourite: bool): string {
    "user/get_movies_user_list/" + userId + "/" + BoolText(watched) + "/" + BoolText(favourite)
  }

  function AddReviewPath(movieId: string): string {
    "user/add_review/" + movieId
  }

  function UpdateReviewPath(reviewId: string): string {
    "user/update_review/" + reviewId
  }

  /** The JSON body of `addMovieToUserList`; the flags travel as text. */
  function AddBody(userId: string, movieId: string, title: string, poster: string,
                   watched: bool, favourite: bool): map<string, string>
  {
    map["user_id" := userId, "movie_id" := movieId, "title" := title, "poster" := poster,
        "watched" := BoolText(watched), "favourite" := BoolText(favourite)]
  }

  /** The JSON body of `updateMovieInUserList`. */
  function UpdateBody(userId: string, movieId: string, watched: bool, favourite: bool): map<string, string> {
    map["user_id" := userId, "movie_id" := movieId,
        "watched" := BoolText(watched), "favourite" := BoolText(favourite)]
  }

  /** The JSON body of `addReview`; the vote travels as its decimal text. */
  function AddReviewBody(username: string, userId: string, title: string, content: string,
                         vote: int): map<string, string>
  {
    map["username" := username, "user_id" := userId, "title" := title,
        "content" := content, "vote" := Decimal(vote)]
  }

  /** The JSON body of `updateReview`. */
  function UpdateReviewBody(title: string, content: string, vote: int): map<string, string> {
    map["title" := title, "content" := content, "vote" := Decimal(vote)]
  }

  // Decimal text of an integer, as Swift's `String(_: Int)` writes it.

  function DigitChar(d: nat): char
    requires d < 10
  {
    "0123456789"[d]
  }

  function Digits(n: nat): string
    decreases n
  {
    if n < 10 then [DigitChar(n)] else Digits(n / 10) + [DigitChar(n % 10)]
  }

  function Decimal(n: int): string {
    if n < 0 then "-" + Digits(-n) else Digits(n)
  }

  /** The value of a string of decimal digits (an independent reading). */
  function DigitsValue(s: string): nat
    requires forall i :: 0 <= i < |s| ==> '0' <= s[i] <= '9'
  {
    if s == [] then 0 else 10 * DigitsValue(s[..|s| - 1]) + (s[|s| - 1] - '0') as nat
  }

  predicate IsDigits(s: string) {
    |s| > 0 && forall i :: 0 <= i < |s| ==> '0' <= s[i] <= '9'
  }

  /** `Digits` writes digits only, without a leading zero, and they read back as n. */
  lemma {:induction false} DigitsReadBack(n: nat)
    ensures IsDigits(Digits(n))
    ensures Digits(n)[0] == '0' ==> n == 0
    ensures DigitsValue(Digits(n)) == n
    decreases n
  {
    if n >= 10 {
      DigitsReadBack(n / 10);
      var s := Digits(n);
      assert s[..|s| - 1] == Digits(n / 10);
    }
  }

  /** The decimal text of a vote is never empty, and reads back as the vote. */
  lemma DecimalReadsBack(n: int)
    ensures |Decimal(n)| > 0
    ensures n >= 0 ==> IsDigits(Decimal(n)) && DigitsValue(Decimal(n)) == n
    ensures n < 0 ==> Decimal(n)[0] == '-' && IsDigits(Decimal(n)[1..])
                      && DigitsValue(Decimal(n)[1..]) == -n
  {
    if n < 0 {
      DigitsReadBack(-n);
      assert Decimal(n)[1..] == Digits(-n);
    } else {
      DigitsReadBack(n);
    }
  }

  // Path segments, as a router that splits on '/' sees them.

  function Split(s: string, sep: char): (r: seq<string>)
    ensures |r| > 0
    decreases |s|
  {
    if s == [] then [""]
    else if s[0] == sep then [""] + Split(s[1..], sep)
    else var rest := Split(s[1..], sep); [[s[0]] + rest[0]] + rest[1..]
  }

  /** Splitting `a + sep + b` splits `a` and `b` apart, when `a` holds no separator. */
  lemma {:induction false} SplitAppend(a: string, sep: char, b: string)
    requires sep !in a
    ensures Split(a + [sep] + b, sep) == [a] + Split(b, sep)
    decreases |a|
  {
    if a == [] {
      assert a + [sep] + b == [sep] + b;
      assert ([sep] + b)[1..] == b;
    } else {
      SplitAppend(a[1..], sep, b);
      assert (a + [sep] + b)[1..] == a[1..] + [sep] + b;
      assert [a[0]] + a[1..] == a;
    }
  }

  /** A string without the separator is one segment. */
  lemma {:induction false} SplitWhole(a: string, sep: char)
    requires sep !in a
    ensures Split(a, sep) == [a]
    decreases |a|
  {
    if a != [] {
      SplitWhole(a[1..], sep);
      assert [a[0]] + a[1..] == a;
    }
  }

  /** Segments joined with '/'. */
  function Join(parts: seq<string>): string
    requires |parts| > 0
    decreases |parts|
  {
    if |parts| == 1 then parts[0] else parts[0] + "/" + Join(parts[1..])
  }

  /** Splitting on '/' undoes joining segments that hold no '/'. */
  lemma {:induction false} SplitJoin(parts: seq<string>)
    requires |parts| > 0
    requires forall i :: 0 <= i < |parts| ==> '/' !in parts[i]
    ensures Split(Join(parts), '/') == parts
    decreases |parts|
  {
    if |parts| == 1 {
      SplitWhole(parts[0], '/');
    } else {
      SplitJoin(parts[1..]);
      SplitAppend(parts[0], '/', Join(parts[1..]));
      assert parts == [parts[0]] + parts[1..];
    }
  }

  /** The delete URL carries the user and movie ids as its last two segments. */
  lemma DeletePathSegments(userId: string, movieId: string)
    requires '/' !in userId && '/' !in movieId
    ensures Split(DeletePath(userId, movieId), '/') ==
            ["user", "delete_movie_from_user_list", userId, movieId]
  {
    var parts := ["user", "delete_movie_from_user_list", userId, movieId];
    assert forall i :: 0 <= i < |parts| ==> '/' !in parts[i];
    DeletePathIsJoin(userId, movieId);
    SplitJoin(parts);
  }

  lemma DeletePathIsJoin(userId: string, movieId: string)
    ensures DeletePath(userId, movieId) == Join(["user", "delete_movie_from_user_list", userId, movieId])
  {
    var parts := ["user", "delete_movie_from_user_list", userId, movieId];
    var inner := userId + "/" + movieId;
    assert Join(parts[2..]) == inner by {
      assert Join(parts[3..]) == movieId;
    }
    DeletePrefixIsJoined(inner);
  }

  lemma DeletePrefixIsJoined(inner: string)
    ensures "user/delete_movie_from_user_list/" + inner == "user" + "/" + ("delete_movie_from_user_list" + "/" + inner)
  {
    assert "user/delete_movie_from_user_list/" == "user" + "/" + "delete_movie_from_user_list" + "/";
  }

  lemma ListPathIsJoin(userId: string, watched: bool, favourite: bool)
    ensures ListPath(userId, watched, favourite) ==
            Join(["user", "get_movies_user_list", userId, BoolText(watched), BoolText(favourite)])
  {
    var w, f := BoolText(watched), BoolText(favourite);
    var parts := ["user", "get_movies_user_list", userId, w, f];
    var inner := userId + "/" + (w + "/" + f);
    assert Join(parts[2..]) == inner by {
      assert Join(parts[4..]) == f;
      assert Join(parts[3..]) == w + "/" + f;
    }
    ListPrefixIsJoined(inner);
  }

  lemma ListPrefixIsJoined(inner: string)
    ensures "user/get_movies_user_list/" + inner == "user" + "/" + ("get_movies_user_list" + "/" + inner)
  {
    assert "user/get_movies_user_list/" == "user" + "/" + "get_movies_user_list" + "/";
  }

  /** The list URL carries the user id and the two flags as its last three segments. */
  lemma ListPathSegments(userId: string, watched: bool, favourite: bool)
    requires '/' !in userId
    ensures Split(ListPath(userId, watched, favourite), '/') ==
            ["user", "get_movies_user_list", userId, BoolText(watched), BoolText(favourite)]
  {
    var parts := ["user", "get_movies_user_list", userId, BoolText(watched), BoolText(favourite)];
    assert '/' !in BoolText(watched) && '/' !in BoolText(favourite);
    assert forall i :: 0 <= i < |parts| ==> '/' !in parts[i];
    ListPathIsJoin(userId, watched, favourite);
    SplitJoin(parts);
  }

  // ---------------------------------------------------------------------
  // Local list bookkeeping

  /** `$0._id == movieId`: an entry without an id never matches. */
  predicate HasId(m: ListedMovie, movieId: string) {
    m.id == Some(movieId)
  }

  /** `movies.removeAll { $0._id == movieId }`. */
  function RemoveAll(movies: seq<ListedMovie>, movieId: string): seq<ListedMovie>
    decreases |movies|
  {
    if movies == [] then []
    else (if HasId(movies[0], movieId) then [] else [movies[0]]) + RemoveAll(movies[1..], movieId)
  }

  /** Removal works entry by entry, so it keeps the survivors in their order. */
  lemma {:induction false} RemoveAllAppend(a: seq<ListedMovie>, b: seq<ListedMovie>, movieId: string)
    ensures RemoveAll(a + b, movieId) == RemoveAll(a, movieId) + RemoveAll(b, movieId)
    decreases |a|
  {
    if a == [] {
      assert a + b == b;
    } else {
      RemoveAllAppend(a[1..], b, movieId);
      var head := if HasId(a[0], movieId) then [] else [a[0]];
      assert (a + b)[0] == a[0] && (a + b)[1..] == a[1..] + b;
      assert RemoveAll(a + b, movieId) == head + RemoveAll(a[1..] + b, movieId);
      assert RemoveAll(a, movieId) == head + RemoveAll(a[1..], movieId);
    }
  }

  /** Exactly the entries carrying the id are removed: none survives, every
      other entry stays, and each removed entry carries the id. */
  lemma {:induction false} RemoveAllRemovesExactly(movies: seq<ListedMovie>, movieId: string)
    ensures forall m :: m in RemoveAll(movies, movieId) <==> m in movies && !HasId(m, movieId)
    ensures multiset(RemoveAll(movies, movieId)) <= multiset(movies)
    ensures |RemoveAll(movies, movieId)| == |movies| - Occurrences(movies, movieId)
    decreases |movies|
  {
    if movies != [] {
      RemoveAllRemovesExactly(movies[1..], movieId);
      assert movies == [movies[0]] + movies[1..];
    }
  }

  /** The number of entries carrying the id. */
  function Occurrences(movies: seq<ListedMovie>, movieId: string): (n: nat)
    ensures n <= |movies|
    decreases |movies|
  {
    if movies == [] then 0
    else (if HasId(movies[0], movieId) then 1 else 0) + Occurrences(movies[1..], movieId)
  }

  /** Removing twice removes nothing more; a list without the id is left as it is. */
  lemma {:induction false} RemoveAllIdempotent(movies: seq<ListedMovie>, movieId: string)
    ensures RemoveAll(RemoveAll(movies, movieId), movieId) == RemoveAll(movies, movieId)
    ensures Occurrences(movies, movieId) == 0 ==> RemoveAll(movies, movieId) == movies
    decreases |movies|
  {
    if movies != [] {
      RemoveAllIdempotent(movies[1..], movieId);
      var tail := RemoveAll(movies[1..], movieId);
      if HasId(movies[0], movieId) {
        assert RemoveAll(movies, movieId) == tail;
      } else {
        var r := [movies[0]] + tail;
        assert RemoveAll(movies, movieId) == r;
        assert r[0] == movies[0] && r[1..] == tail;
        assert RemoveAll(r, movieId) == [movies[0]] + RemoveAll(tail, movieId);
        assert movies == [movies[0]] + movies[1..];
      }
    }
  }

  // ---------------------------------------------------------------------
  // The two phases of each operation, on values

  /** The start phase of add, update, delete and the review operations. */
  function Started(s: State): State {
    s.(isLoading := true, successMessage := None, errorMessage := None)
  }

  /** The start phase when `URL(string:)` rejects the address. */
  function InvalidUrl(s: State): State {
    s.(errorMessage := Some("Invalid URL"))
  }

  /** The two early returns shared by the completions of add, update and the
      review operations; None when data arrived. */
  function TransferError<T>(reply: Transfer<T>): Option<string> {
    match reply
    case Failed(reason) => Some("HTTP request failed: " + reason)
    case NoData => Some("No data received")
    case Data(_) => None
  }

  /** The completion of `addMovieToUserList`: on an error, report it and
      return (leaving `isLoading` set); otherwise append the entry unless an
      error has been reported since the start, then clear `isLoading`. */
  function AddCompleted(s: State, entry: ListedMovie, reply: Transfer<Envelope>): State {
    match TransferError(reply)
    case Some(e) => s.(errorMessage := Some(e))
    case None =>
      var appended := if s.errorMessage == None then s.movies + [entry] else s.movies;
      s.(movies := appended, isLoading := false)
  }

  /** The completion of `updateMovieInUserList`; the local entry is not updated. */
  function UpdateCompleted(s: State, reply: Transfer<Envelope>): State {
    match TransferError(reply)
    case Some(e) => s.(errorMessage := Some(e))
    case None => s.(isLoading := false)
  }

  /** The completion of `deleteMovieFromUserList`. */
  function DeleteCompleted(s: State, movieId: string, reply: Transfer<Envelope>): State {
    var done := s.(isLoading := false);
    match reply
    case Failed(reason) => done.(errorMessage := Some("HTTP request failed: " + reason))
    case NoData => done.(errorMessage := Some("No data received"))
    case Data(Malformed(reason)) => done.(errorMessage := Some("Error decoding JSON: " + reason))
    case Data(Parsed(Envelope(message, error))) =>
      if error.Some? then done.(errorMessage := error)
      else if message.Some? then done.(successMessage := message, movies := RemoveAll(s.movies, movieId))
      else done
  }

  /** The completion of `getMoviesUserList`: a decoded list replaces the local one. */
  function ListFetched(s: State, reply: Transfer<seq<ListedMovie>>): State {
    match reply
    case Data(Parsed(movies)) => s.(movies := movies)
    case _ => s
  }

  /** The completion of `addReview`. */
  function ReviewAdded(s: State, review: Review, reply: Transfer<Envelope>): State {
    match TransferError(reply)
    case Some(e) => s.(errorMessage := Some(e))
    case None =>
      var appended := if s.errorMessage == None then s.reviews + [review] else s.reviews;
      s.(reviews := appended, isLoading := false)
  }

  /** The completion of `updateReview`. */
  function ReviewUpdated(s: State, reply: Transfer<Envelope>): State {
    UpdateCompleted(s, reply)
  }

  /** The completion of `appleSignIn`: a decoded user is recorded. */
  function SignedIn(s: State, reply: Transfer<User>): State {
    match reply
    case Data(Parsed(u)) => s.(user := Some(u))
    case _ => s
  }

  // ---------------------------------------------------------------------
  // Properties of the phases

  /** Starting an operation raises `isLoading` and clears both messages,
      touching nothing else. */
  lemma StartResetsFlags(s: State)
    ensures var t := Started(s);
      && t.isLoading && t.successMessage == None && t.errorMessage == None
      && t.movies == s.movies && t.reviews == s.reviews && t.user == s.user
  {
  }

  /** A successful add right after its start appends exactly the entry and
      clears `isLoading`. */
  lemma AddAppendsEntry(s: State, entry: ListedMovie, body: Decoding<Envelope>)
    ensures var t := AddCompleted(Started(s), entry, Data(body));
      && t.movies == s.movies + [entry]
      && t.movies[..|s.movies|] == s.movies && t.movies[|s.movies|] == entry
      && !t.isLoading && t.errorMessage == None && t.successMessage == None
  {
  }

  /** A failed add or update reports the error, returns before clearing
      `isLoading`, and leaves the list alone. */
  lemma AddUpdateFailureKeepsList(s: State, entry: ListedMovie, reply: Transfer<Envelope>)
    requires !reply.Data?
    ensures var a := AddCompleted(s, entry, reply);
            var u := UpdateCompleted(s, reply);
      && a.movies == s.movies && u.movies == s.movies
      && a.isLoading == s.isLoading && u.isLoading == s.isLoading
      && a.errorMessage.Some? && a.errorMessage == u.errorMessage
  {
  }

  /** The update completion never changes the list. */
  lemma UpdateNeverTouchesList(s: State, reply: Transfer<Envelope>)
    ensures UpdateCompleted(s, reply).movies == s.movies
    ensures reply.Data? ==> UpdateCompleted(s, reply) == s.(isLoading := false)
  {
  }

  /** A delete completion always clears `isLoading`; a server error wins over
      a message and leaves the list as it was; an envelope with neither field
      changes nothing else; a malformed body is reported. */
  lemma DeleteOutcomes(s: State, movieId: string, reply: Transfer<Envelope>)
    ensures var t := DeleteCompleted(s, movieId, reply);
      && !t.isLoading
      && (reply.Data? && reply.body.Parsed? && reply.body.value.error.Some? ==>
            t.errorMessage == reply.body.value.error && t.movies == s.movies
            && t.successMessage == s.successMessage)
      && (reply == Data(Parsed(Envelope(None, None))) ==> t == s.(isLoading := false))
      && (reply.Data? && reply.body.Malformed? ==>
            t.errorMessage == Some("Error decoding JSON: " + reply.body.reason) && t.movies == s.movies)
  {
  }

  /** A delete answered with a message and no error reports it and removes
      exactly the entries carrying the id, keeping the others in order. */
  lemma DeleteRemovesEntries(s: State, movieId: string, message: string)
    ensures var t := DeleteCompleted(s, movieId, Data(Parsed(Envelope(Some(message), None))));
      && t.successMessage == Some(message)
      && t.movies == RemoveAll(s.movies, movieId)
      && (forall m :: m in t.movies <==> m in s.movies && !HasId(m, movieId))
      && |t.movies| == |s.movies| - Occurrences(s.movies, movieId)
  {
    RemoveAllRemovesExactly(s.movies, movieId);
  }

  /** Fetching replaces the list wholesale on success and leaves it otherwise. */
  lemma FetchReplacesOrKeeps(s: State, reply: Transfer<seq<ListedMovie>>)
    ensures reply.Data? && reply.body.Parsed? ==> ListFetched(s, reply).movies == reply.body.value
    ensures !(reply.Data? && reply.body.Parsed?) ==> ListFetched(s, reply) == s
    ensures ListFetched(s, reply).isLoading == s.isLoading
  {
  }

  /** Signing in touches only the user: a decoded user is recorded, any
      other outcome leaves the state, and repeating the same reply changes
      nothing more. */
  lemma SignInOnlySetsUser(s: State, reply: Transfer<User>)
    ensures SignedIn(s, reply).user == (if reply.Data? && reply.body.Parsed? then Some(reply.body.value) else s.user)
    ensures SignedIn(s, reply) == s.(user := SignedIn(s, reply).user)
    ensures SignedIn(SignedIn(s, reply), reply) == SignedIn(s, reply)
  {
  }

  // ---------------------------------------------------------------------
  // The view-model object

  class UserViewModel {
    var movies: seq<ListedMovie>
    var reviews: seq<Review>
    var user: Option<User>
    var successMessage: Option<string>
    var errorMessage: Option<string>
    var isLoading: bool

    function Current(): State
      reads this
    {
      State(movies, reviews, user, successMessage, errorMessage, isLoading)
    }

    constructor ()
      ensures Current() == State([], [], None, None, None, false)
    {
      movies, reviews, user := [], [], None;
      successMessage, errorMessage, isLoading := None, None, false;
    }

    /** The common start phase; false when the URL was rejected. */
    method Start(urlValid: bool) returns (sending: bool)
      modifies this
      ensures sending == urlValid
      ensures Current() == if urlValid then Started(old(Current())) else InvalidUrl(old(Current()))
    {
      if !urlValid {
        errorMessage := Some("Invalid URL");
        return false;
      }
      isLoading := true;
      successMessage := None;
      errorMessage := None;
      return true;
    }

    /** Start of `addMovieToUserList`: the body sent, if any. */
    method StartAdd(userId: string, movieId: string, title: string, poster: string,
                    watched: bool, favourite: bool, urlValid: bool)
      returns (body: Option<map<string, string>>)
      modifies this
      ensures body == if urlValid then Some(AddBody(userId, movieId, title, poster, watched, favourite)) else None
      ensures Current() == if urlValid then Started(old(Current())) else InvalidUrl(old(Current()))
    {
      var sending := Start(urlValid);
      body := if sending then Some(AddBody(userId, movieId, title, poster, watched, favourite)) else None;
    }

    /** Completion of `addMovieToUserList`. */
    method CompleteAdd(movieId: string, title: string, poster: string, watched: bool, favourite: bool,
                       reply: Transfer<Envelope>)
      modifies this
      ensures Current() == AddCompleted(old(Current()),
        ListedMovie(Some(movieId), Some(title), Some(poster), Some(watched), Some(favourite)), reply)
    {
      match reply
      case Failed(reason) =>
        errorMessage := Some("HTTP request failed: " + reason);
        return;
      case NoData =>
        errorMessage := Some("No data received");
        return;
      case Data(_) =>
      if errorMessage == None {
        var added := ListedMovie(Some(movieId), Some(title), Some(poster), Some(watched), Some(favourite));
        movies := movies + [added];
      }
      isLoading := false;
    }

    /** Start of `updateMovieInUserList`. */
    method StartUpdate(userId: string, movieId: string, watched: bool, favourite: bool, urlValid: bool)
      returns (body: Option<map<string, string>>)
      modifies this
      ensures body == if urlValid then Some(UpdateBody(userId, movieId, watched, favourite)) else None
      ensures Current() == if urlValid then Started(old(Current())) else InvalidUrl(old(Current()))
    {
      var sending := Start(urlValid);
      body := if sending then Some(UpdateBody(userId, movieId, watched, favourite)) else None;
    }

    /** Completion of `updateMovieInUserList`. */
    method CompleteUpdate(reply: Transfer<Envelope>)
      modifies this
      ensures Current() == UpdateCompleted(old(Current()), reply)
    {
      match reply
      case Failed(reason) =>
        errorMessage := Some("HTTP request failed: " + reason);
        return;
      case NoData =>
        errorMessage := Some("No data received");
        return;
      case Data(_) =>
      isLoading := false;
    }

    /** Start of `deleteMovieFromUserList`: the path requested, if any. */
    method StartDelete(userId: string, movieId: string, urlValid: bool) returns (path: Option<string>)
      modifies this
      ensures path == if urlValid then Some(DeletePath(userId, movieId)) else None
      ensures Current() == if urlValid then Started(old(Current())) else InvalidUrl(old(Current()))
    {
      var sending := Start(urlValid);
      path := if sending then Some(DeletePath(userId, movieId)) else None;
    }

    /** Completion of `deleteMovieFromUserList`. */
    method CompleteDelete(movieId: string, reply: Transfer<Envelope>)
      modifies this
      ensures Current() == DeleteCompleted(old(Current()), movieId, reply)
    {
      isLoading := false;
      match reply
      case Failed(reason) =>
        errorMessage := Some("HTTP request failed: " + reason);
        return;
      case NoData =>
        errorMessage := Some("No data received");
        return;
      case Data(Malformed(reason)) =>
        errorMessage := Some("Error decoding JSON: " + reason);
      case Data(Parsed(response)) =>
        if response.error.Some? {
          errorMessage := response.error;
        } else if response.message.Some? {
          successMessage := response.message;
          movies := RemoveAll(movies, movieId);
        }
    }

    /** `getMoviesUserList`: the path requested (None when the URL was
        rejected, which only prints), then the completion. The flags and
        `isLoading` are untouched. */
    method GetMoviesUserList(userId: string, watched: bool, favourite: bool, urlValid: bool,
                             reply: Transfer<seq<ListedMovie>>)
      returns (path: Option<string>)
      modifies this
      ensures path == if urlValid then Some(ListPath(userId, watched, favourite)) else None
      ensures Current() == if urlValid then ListFetched(old(Current()), reply) else old(Current())
    {
      if !urlValid {
        return None;
      }
      path := Some(ListPath(userId, watched, favourite));
      if reply.Data? && reply.body.Parsed? {
        movies := reply.body.value;
      }
    }

    /** Start of `addReview`. */
    method StartAddReview(movieId: string, username: string, userId: string, title: string,
                          content: string, vote: int, urlValid: bool)
      returns (request: Option<(string, map<string, string>)>)
      modifies this
      ensures request == if urlValid
        then Some((AddReviewPath(movieId), AddReviewBody(username, userId, title, content, vote))) else None
      ensures Current() == if urlValid then Started(old(Current())) else InvalidUrl(old(Current()))
    {
      var sending := Start(urlValid);
      request := if sending
        then Some((AddReviewPath(movieId), AddReviewBody(username, userId, title, content, vote))) else None;
    }

    /** Completion of `addReview`. */
    method CompleteAddReview(username: string, userId: string, title: string, content: string, vote: int,
                             reply: Transfer<Envelope>)
      modifies this
      ensures Current() == ReviewAdded(old(Current()), Review(title, content, vote, User(userId, username)), reply)
    {
      match reply
      case Failed(reason) =>
        errorMessage := Some("HTTP request failed: " + reason);
        return;
      case NoData =>
        errorMessage := Some("No data received");
        return;
      case Data(_) =>
      if errorMessage == None {
        reviews := reviews + [Review(title, content, vote, User(userId, username))];
      }
      isLoading := false;
    }

    /** Start of `updateReview`. */
    method StartUpdateReview(reviewId: string, title: string, content: string, vote: int, urlValid: bool)
      returns (request: Option<(string, map<string, string>)>)
      modifies this
      ensures request == if urlValid
        then Some((UpdateReviewPath(reviewId), UpdateReviewBody(title, content, vote))) else None
      ensures Current() == if urlValid then Started(old(Current())) else InvalidUrl(old(Current()))
    {
      var sending := Start(urlValid);
      request := if sending then Some((UpdateReviewPath(reviewId), UpdateReviewBody(title, content, vote))) else None;
    }

    /** Completion of `updateReview`: nothing is recorded locally. */
    method CompleteUpdateReview(reply: Transfer<Envelope>)
      modifies this
      ensures Current() == ReviewUpdated(old(Current()), reply)
    {
      CompleteUpdate(reply);
    }

    /** Completion of `appleSignIn`. */
    method CompleteAppleSignIn(reply: Transfer<User>)
      modifies this
      ensures Current() == SignedIn(old(Current()), reply)
    {
      if reply.Data? && reply.body.Parsed? {
        user := Some(reply.body.value);
      }
    }
  }
}
