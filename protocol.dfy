/**
 * How the iOS client's requests and the backend's handlers fit together:
 * the flags the client writes as text are the flags the server parses, the
 * list URL's segments carry them to the route, review bodies always pass
 * the parameter check on the vote, and the client's reading of the delete
 * and review replies.
 */
module Protocol {
  import opened Wrappers
  import UserApi
  import UserEndpoints

  /** A client body of strings as the server's `request.get_json()` sees it. */
  function Sent(body: map<string, string>): (r: UserEndpoints.Body)
    ensures r.Keys == body.Keys
    ensures forall k :: k in body ==> r[k] == UserEndpoints.JString(body[k])
  {
    map k | k in body :: UserEndpoints.JString(body[k])
  }

  /** The client's `JSONDecoder` reading of a flat reply: both fields are
      optional, so a body with neither key decodes to an empty envelope. */
  function Received(body: map<string, string>): (e: UserApi.Envelope)
    ensures e.message.Some? <==> "message" in body
    ensures e.error.Some? <==> "error" in body
    ensures e.message.Some? ==> e.message.value == body["message"]
    ensures e.error.Some? ==> e.error.value == body["error"]
  {
    UserApi.Envelope(if "message" in body then Some(body["message"]) else None,
                     if "error" in body then Some(body["error"]) else None)
  }

  /** The text the client writes for a flag parses back to the same flag. */
  lemma FlagTextRoundTrip(b: bool)
    ensures UserEndpoints.ParseFlagText(UserApi.BoolText(b)) == b
  {
    if b {
      assert UserEndpoints.Lower("true") == "true";
    } else {
      assert UserEndpoints.Lower("false")[0] == 'f';
    }
  }

  /** The add and update bodies reach the database with the client's flags,
      and are answered with 200 and a message. */
  lemma ListBodiesRoundTrip(userId: string, movieId: string, title: string, poster: string,
                            watched: bool, favourite: bool,
                            added: UserEndpoints.AddCall -> nat, updated: UserEndpoints.UpdateCall -> nat)
    ensures UserEndpoints.ParseFlags(Sent(UserApi.AddBody(userId, movieId, title, poster, watched, favourite)))
            == Ok((watched, favourite))
    ensures UserEndpoints.ParseFlags(Sent(UserApi.UpdateBody(userId, movieId, watched, favourite)))
            == Ok((watched, favourite))
    ensures UserEndpoints.AddMovieToUserList(Sent(UserApi.AddBody(userId, movieId, title, poster, watched, favourite)), added).Status() == 200
    ensures UserEndpoints.UpdateMovieInUserList(Sent(UserApi.UpdateBody(userId, movieId, watched, favourite)), updated).Status() == 200
  {
    FlagTextRoundTrip(watched);
    FlagTextRoundTrip(favourite);
    var a := Sent(UserApi.AddBody(userId, movieId, title, poster, watched, favourite));
    var u := Sent(UserApi.UpdateBody(userId, movieId, watched, favourite));
    assert UserEndpoints.Get(a, "watched") == Some(UserEndpoints.JString(UserApi.BoolText(watched)));
    assert UserEndpoints.Get(a, "favourite") == Some(UserEndpoints.JString(UserApi.BoolText(favourite)));
    assert UserEndpoints.Get(u, "watched") == Some(UserEndpoints.JString(UserApi.BoolText(watched)));
    assert UserEndpoints.Get(u, "favourite") == Some(UserEndpoints.JString(UserApi.BoolText(favourite)));
  }

  /** The list URL's last three segments are the route's parameters; the
      server reads the client's user id and flags back from them. */
  lemma ListPathRoundTrip(userId: string, watched: bool, favourite: bool)
    requires '/' !in userId
    ensures var segments := UserApi.Split(UserApi.ListPath(userId, watched, favourite), '/');
      && |segments| == 5
      && UserEndpoints.MoviesUserListCall(segments[2], segments[3], segments[4]) == (userId, watched, favourite)
  {
    UserApi.ListPathSegments(userId, watched, favourite);
    FlagTextRoundTrip(watched);
    FlagTextRoundTrip(favourite);
  }

  /** The vote the client sends is never empty text, so a review body with
      a non-empty user id, title and content (and an id in the path)
      always passes the parameter check; the username is not checked. */
  lemma ReviewBodiesPassCheck(movieId: string, reviewId: string, username: string, userId: string, title: string,
                              content: string, vote: int, movieExists: bool, added: bool, updated: bool)
    ensures var r := UserEndpoints.AddReview(movieId, Sent(UserApi.AddReviewBody(username, userId, title, content, vote)),
                                             movieExists, added);
      r.Status() == 400 <==> userId == "" || title == "" || content == "" || movieId == ""
    ensures var r := UserEndpoints.UpdateReview(reviewId, Sent(UserApi.UpdateReviewBody(title, content, vote)), updated);
      r.Status() == 400 <==> title == "" || content == "" || reviewId == ""
  {
    AddReviewBodyChecked(movieId, username, userId, title, content, vote, movieExists, added);
    UpdateReviewBodyChecked(reviewId, title, content, vote, updated);
  }

  lemma AddReviewBodyChecked(movieId: string, username: string, userId: string, title: string,
                             content: string, vote: int, movieExists: bool, added: bool)
    ensures var r := UserEndpoints.AddReview(movieId, Sent(UserApi.AddReviewBody(username, userId, title, content, vote)),
                                             movieExists, added);
      r.Status() == 400 <==> userId == "" || title == "" || content == "" || movieId == ""
  {
    UserApi.DecimalReadsBack(vote);
    var a := Sent(UserApi.AddReviewBody(username, userId, title, content, vote));
    assert UserEndpoints.Get(a, "user_id") == Some(UserEndpoints.JString(userId));
    assert UserEndpoints.Get(a, "title") == Some(UserEndpoints.JString(title));
    assert UserEndpoints.Get(a, "content") == Some(UserEndpoints.JString(content));
    assert UserEndpoints.Get(a, "vote") == Some(UserEndpoints.JString(UserApi.Decimal(vote)));
  }

  lemma UpdateReviewBodyChecked(reviewId: string, title: string, content: string, vote: int, updated: bool)
    ensures var r := UserEndpoints.UpdateReview(reviewId, Sent(UserApi.UpdateReviewBody(title, content, vote)), updated);
      r.Status() == 400 <==> title == "" || content == "" || reviewId == ""
  {
    UserApi.DecimalReadsBack(vote);
    var u := Sent(UserApi.UpdateReviewBody(title, content, vote));
    assert UserEndpoints.Get(u, "title") == Some(UserEndpoints.JString(title));
    assert UserEndpoints.Get(u, "content") == Some(UserEndpoints.JString(content));
    assert UserEndpoints.Get(u, "vote") == Some(UserEndpoints.JString(UserApi.Decimal(vote)));
  }

  /** The client's reading of every delete reply: only a real removal
      changes the local list (removing every entry with that id); a missing
      entry, a bad id and a server failure carry neither `message` nor
      `error`, so the client reports nothing and keeps its list. */
  lemma DeleteReplyOnClient(s: UserApi.State, movieId: string, answer: UserEndpoints.DbAnswer)
    ensures var reply := UserEndpoints.DeleteMovieFromUserList(answer);
            var after := UserApi.DeleteCompleted(s, movieId, UserApi.Data(UserApi.Parsed(Received(reply.body))));
      && !after.isLoading
      && (answer.Modified? && answer.count > 0 ==>
            after.movies == UserApi.RemoveAll(s.movies, movieId)
            && after.successMessage == Some("Movie removed successfully.")
            && after.errorMessage == s.errorMessage)
      && (!(answer.Modified? && answer.count > 0) ==>
            after == s.(isLoading := false))
  {
    UserEndpoints.DeleteResponses(answer);
  }

  /** A review of a movie the server does not know is refused with an
      `error` body, yet the client, which does not read the reply, appends
      the review to its local list. */
  lemma RefusedReviewStillShown(s: UserApi.State, movieId: string, username: string, userId: string,
                                title: string, content: string, vote: int)
    requires userId != "" && title != "" && content != "" && movieId != ""
    ensures var reply := UserEndpoints.AddReview(movieId, Sent(UserApi.AddReviewBody(username, userId, title, content, vote)),
                                                 false, false);
            var review := UserApi.Review(title, content, vote, UserApi.User(userId, username));
            var after := UserApi.ReviewAdded(UserApi.Started(s), review,
                                             UserApi.Data(UserApi.Parsed(Received(reply.body))));
      && reply.Reply? && reply.status == 200 && "error" in reply.body
      && after.reviews == s.reviews + [review]
  {
    AddReviewBodyChecked(movieId, username, userId, title, content, vote, false, false);
  }
}
