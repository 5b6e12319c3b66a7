/**
 * The Flask handlers of the `/api/user` blueprint: how each one reads its
 * request, which checks it makes, and which response it picks from the
 * database's answer. The database calls themselves are not part of this
 * model; their answers are inputs.
 */
module UserEndpoints {
  import opened Wrappers

  /** The JSON values a request body can carry (floats, arrays and objects
      are not modelled). */
  datatype JsonValue = JString(s: string) | JInt(i: int) | JBool(b: bool) | JNull

  /** A request body, as `request.get_json()` yields it. */
  type Body = map<string, JsonValue>

  /** `data.get(key)`: None for a missing key. */
  function Get(data: Body, key: string): Option<JsonValue> {
    if key in data then Some(data[key]) else None
  }

  /** An HTTP response: a status with a flat JSON object of strings, or an
      exception that escaped the handler (Flask answers it with status 500). */
  datatype Response = Reply(status: int, body: map<string, string>) | Uncaught(exception: string) {
    function Status(): int {
      if Reply? then status else 500
    }
  }

  /** Python truthiness of an optional JSON value. */
  predicate Truthy(v: Option<JsonValue>) {
    match v
    case None => false
    case Some(JString(s)) => s != ""
    case Some(JInt(i)) => i != 0
    case Some(JBool(b)) => b
    case Some(JNull) => false
  }

  // ---------------------------------------------------------------------
  // Flag parsing

  /** `str.lower()` on ASCII letters. */
  function LowerChar(c: char): char {
    if 'A' <= c <= 'Z' then (c as int + 32) as char else c
  }

  function Lower(s: string): (r: string)
    ensures |r| == |s|
    ensures forall i :: 0 <= i < |s| ==> r[i] == LowerChar(s[i])
  {
    if s == [] then [] else [LowerChar(s[0])] + Lower(s[1..])
  }

  /** `value.lower() == 'true'`, for a path segment. */
  predicate ParseFlagText(s: string) {
    Lower(s) == "true"
  }

  /** The same for a body field: a missing field (None) or a non-string has
      no `lower` and raises AttributeError. */
  function ParseFlag(v: Option<JsonValue>): Result<bool, string> {
    match v
    case Some(JString(s)) => Ok(ParseFlagText(s))
    case _ => Err("AttributeError")
  }

  /** A flag is true exactly when it spells "true" in any mix of cases. */
  lemma ParseFlagTextSpelling(s: string)
    ensures ParseFlagText(s) <==>
      |s| == 4 && s[0] in "tT" && s[1] in "rR" && s[2] in "uU" && s[3] in "eE"
  {
    if |s| == 4 {
      assert LowerChar(s[0]) == 't' <==> s[0] in "tT";
      assert LowerChar(s[1]) == 'r' <==> s[1] in "rR";
      assert LowerChar(s[2]) == 'u' <==> s[2] in "uU";
      assert LowerChar(s[3]) == 'e' <==> s[3] in "eE";
      assert Lower(s) == [LowerChar(s[0]), LowerChar(s[1]), LowerChar(s[2]), LowerChar(s[3])];
    }
  }

  // ---------------------------------------------------------------------
  // add_movie_to_user_list and update_movie_in_user_list

  /** The arguments the add handler passes to the database. */
  datatype AddCall = AddCall(userId: Option<JsonValue>, movieId: Option<JsonValue>,
                             title: Option<JsonValue>, poster: Option<JsonValue>,
                             watched: bool, favourite: bool)

  /** The arguments the update handler passes to the database. */
  datatype UpdateCall = UpdateCall(userId: Option<JsonValue>, movieId: Option<JsonValue>,
                                   watched: bool, favourite: bool)

  /** The two flags both handlers parse, `watched` first, or the exception
      the first bad one raised. The ids are passed on unchecked: the
      handlers' parameter checks are commented out. */
  function ParseFlags(data: Body): Result<(bool, bool), string> {
    match ParseFlag(Get(data, "watched"))
    case Err(e) => Err(e)
    case Ok(watched) =>
      match ParseFlag(Get(data, "favourite"))
      case Err(e) => Err(e)
      case Ok(favourite) => Ok((watched, favourite))
  }

  /** `api_add_movie_to_user_list`, given the database's `modified_count`
      for each call. */
  function AddMovieToUserList(data: Body, modifiedCount: AddCall -> nat): Response {
    match ParseFlags(data)
    case Err(e) => Uncaught(e)
    case Ok((watched, favourite)) =>
      var call := AddCall(Get(data, "user_id"), Get(data, "movie_id"), Get(data, "title"),
                          Get(data, "poster"), watched, favourite);
      if modifiedCount(call) > 0 then Reply(200, map["message" := "Successfully added movie."])
      else Reply(200, map["message" := "No documents were added."])
  }

  /** `api_update_movie_in_user_list`. */
  function UpdateMovieInUserList(data: Body, modifiedCount: UpdateCall -> nat): Response {
    match ParseFlags(data)
    case Err(e) => Uncaught(e)
    case Ok((watched, favourite)) =>
      var call := UpdateCall(Get(data, "user_id"), Get(data, "movie_id"), watched, favourite);
      if modifiedCount(call) > 0 then Reply(200, map["message" := "Successfully updated the movie's watched status."])
      else Reply(200, map["message" := "No documents were updated. Either the user or movie was not found."])
  }

  /** With both flags present as strings, add and update always answer 200
      with a message, never an error, and say whether a document changed. */
  lemma AddUpdateAlwaysMessage(data: Body, added: AddCall -> nat, updated: UpdateCall -> nat)
    requires Get(data, "watched").Some? && Get(data, "watched").value.JString?
    requires Get(data, "favourite").Some? && Get(data, "favourite").value.JString?
    ensures var a := AddMovieToUserList(data, added);
            var call := AddCall(Get(data, "user_id"), Get(data, "movie_id"), Get(data, "title"),
                                Get(data, "poster"), ParseFlags(data).value.0, ParseFlags(data).value.1);
      && a.Reply? && a.status == 200 && a.body.Keys == {"message"}
      && (a.body["message"] == "Successfully added movie." <==> added(call) > 0)
    ensures var u := UpdateMovieInUserList(data, updated);
      && u.Reply? && u.status == 200 && u.body.Keys == {"message"}
  {
    AddAlwaysMessage(data, added);
    UpdateAlwaysMessage(data, updated);
  }

  lemma AddAlwaysMessage(data: Body, added: AddCall -> nat)
    requires Get(data, "watched").Some? && Get(data, "watched").value.JString?
    requires Get(data, "favourite").Some? && Get(data, "favourite").value.JString?
    ensures var a := AddMovieToUserList(data, added);
            var call := AddCall(Get(data, "user_id"), Get(data, "movie_id"), Get(data, "title"),
                                Get(data, "poster"), ParseFlags(data).value.0, ParseFlags(data).value.1);
      && a.Reply? && a.status == 200 && a.body.Keys == {"message"}
      && (a.body["message"] == "Successfully added movie." <==> added(call) > 0)
  {
  }

  lemma UpdateAlwaysMessage(data: Body, updated: UpdateCall -> nat)
    requires Get(data, "watched").Some? && Get(data, "watched").value.JString?
    requires Get(data, "favourite").Some? && Get(data, "favourite").value.JString?
    ensures var u := UpdateMovieInUserList(data, updated);
      && u.Reply? && u.status == 200 && u.body.Keys == {"message"}
  {
  }

  /** A missing flag is not rejected with 400: it crashes the handler. */
  lemma MissingFlagCrashes(data: Body, added: AddCall -> nat, updated: UpdateCall -> nat)
    requires "watched" !in data || "favourite" !in data
    ensures AddMovieToUserList(data, added).Status() == 500
    ensures UpdateMovieInUserList(data, updated).Status() == 500
  {
  }

  // ---------------------------------------------------------------------
  // delete_movie_from_user_list

  /** The database's answer to the delete: a `modified_count` or an exception. */
  datatype DbAnswer = Modified(count: nat) | Raised(kind: ExceptionKind)
  datatype ExceptionKind = TypeError | ValueError | OtherException

  /** `api_delete_movie_from_user_list`. Only the success case uses the
      `message` key; the other bodies are keyed by their explanation, valued
      by the standard reason phrase of the status they name. */
  function DeleteMovieFromUserList(answer: DbAnswer): Response {
    match answer
    case Modified(n) =>
      if n > 0 then Reply(200, map["message" := "Movie removed successfully."])
      else Reply(200, map["Movie not found in user's list." := "Not Found"])
    case Raised(TypeError) => Reply(400, map["Invalid user ID or movie ID format." := "Bad Request"])
    case Raised(ValueError) => Reply(400, map["Invalid user ID or movie ID format." := "Bad Request"])
    case Raised(OtherException) => Reply(500, map["Error deleting movie" := "Internal Server Error"])
  }

  /** Only a real removal answers with a `message`; no answer ever carries
      an `error` key; the status follows the exception's kind. */
  lemma DeleteResponses(answer: DbAnswer)
    ensures var r := DeleteMovieFromUserList(answer);
      && r.Reply?
      && ("message" in r.body <==> answer.Modified? && answer.count > 0)
      && "error" !in r.body
      && (answer.Modified? ==> r.status == 200)
      && (answer == Raised(TypeError) || answer == Raised(ValueError) <==> r.status == 400)
      && (answer == Raised(OtherException) <==> r.status == 500)
  {
  }

  // ---------------------------------------------------------------------
  // get_movies_user_list

  /** `api_get_movies_user_list`: the arguments passed to the database. */
  function MoviesUserListCall(userId: string, watched: string, favourite: string): (string, bool, bool) {
    (userId, ParseFlagText(watched), ParseFlagText(favourite))
  }

  // ---------------------------------------------------------------------
  // add_review and update_review

  const MissingParameters := Reply(400, map["error" := "Missing required parameters"])

  /** `api_add_review`, given whether `get_movie` finds the movie and whether
      `add_review` reports a result. `datetime.now()` is always truthy. */
  function AddReview(movieId: string, data: Body, movieExists: bool, added: bool): Response {
    if !(Truthy(Get(data, "user_id")) && Truthy(Get(data, "title")) && Truthy(Get(data, "content"))
         && Truthy(Get(data, "vote")) && movieId != "")
    then MissingParameters
    else if !movieExists then Reply(200, map["error" := "The movie you are trying to review does not exist."])
    else if added then Reply(200, map["message" := "Successfully added review."])
    else Reply(200, map["message" := "No review were added."])
  }

  /** `api_update_review`. */
  function UpdateReview(reviewId: string, data: Body, updated: bool): Response {
    if !(Truthy(Get(data, "title")) && Truthy(Get(data, "content")) && Truthy(Get(data, "vote"))
         && reviewId != "")
    then MissingParameters
    else if updated then Reply(200, map["message" := "Successfully updated review."])
    else Reply(200, map["message" := "No review was updated."])
  }

  /** The parameter check comes first and is the only 400; a review of a
      missing movie is an error answered with 200; the username is never
      checked. */
  lemma AddReviewChecks(movieId: string, data: Body, movieExists: bool, added: bool)
    ensures var r := AddReview(movieId, data, movieExists, added);
      && r.Reply?
      && (r.status == 400 <==>
            !Truthy(Get(data, "user_id")) || !Truthy(Get(data, "title")) || !Truthy(Get(data, "content"))
            || !Truthy(Get(data, "vote")) || movieId == "")
      && (r.status == 400 ==> r == MissingParameters)
      && (r.status != 400 && !movieExists ==> r.status == 200 && "error" in r.body)
      && (r.status != 400 && movieExists ==> r.status == 200 && "message" in r.body && "error" !in r.body)
    ensures AddReview(movieId, data["username" := JNull], movieExists, added) ==
            AddReview(movieId, data, movieExists, added)
  {
    var d := data["username" := JNull];
    assert Get(d, "user_id") == Get(data, "user_id");
    assert Get(d, "title") == Get(data, "title");
    assert Get(d, "content") == Get(data, "content");
    assert Get(d, "vote") == Get(data, "vote");
  }

  /** `update_review` needs title, content, vote and the review id. */
  lemma UpdateReviewChecks(reviewId: string, data: Body, updated: bool)
    ensures var r := UpdateReview(reviewId, data, updated);
      && r.Reply?
      && (r.status == 400 <==>
            !Truthy(Get(data, "title")) || !Truthy(Get(data, "content")) || !Truthy(Get(data, "vote"))
            || reviewId == "")
      && (r.status != 400 ==> r.status == 200 && "message" in r.body)
  {
  }
}
