/**
 * The fake-data generators used to seed the database: users with movie
 * lists, and reviews embedded into the movies they review. Every random
 * draw (`random.sample`, `random.choice`, `random.uniform`) and every Faker
 * value is a parameter; the generators' effect on the movie documents they
 * are given is modelled on objects, since they update those in place.
 */
module SeedData {

  /** A movie document while seeding: the counters and the embedded reviews
      are updated in place. */
  class MovieDoc {
    const title: string
    const poster: string
    var addedCount: nat
    var watchedCount: nat
    var voteCount: int
    var reviews: seq<Review>

    /** The document of a loaded movie: the fields the seeders read or
        update, with the values the loader gave them. */
    constructor (title: string, poster: string, voteCount: int, reviews: seq<Review>,
                 watchedCount: nat, addedCount: nat)
      ensures this.title == title && this.poster == poster && this.voteCount == voteCount
      ensures this.reviews == reviews && this.watchedCount == watchedCount && this.addedCount == addedCount
    {
      this.title := title;
      this.poster := poster;
      this.voteCount := voteCount;
      this.reviews := reviews;
      this.watchedCount := watchedCount;
      this.addedCount := addedCount;
    }
  }

  /** An entry of a user's movie list. */
  datatype ListEntry = ListEntry(title: string, poster: string, watched: bool)

  /** A generated user. */
  datatype SeedUser = SeedUser(email: string, password: string, username: string, moviesList: seq<ListEntry>)

  /** A generated review; dates are compared as numbers. */
  datatype Review = Review(username: string, title: string, content: string, vote: real, date: int)

  // ---------------------------------------------------------------------
  // Counting what a sample touches

  /** The movies a sample draws, each with the watched flag drawn for it. */
  function Sampled(movies: seq<MovieDoc>, picks: seq<nat>, watched: seq<bool>): (s: seq<(MovieDoc, bool)>)
    requires |watched| == |picks|
    requires forall k :: 0 <= k < |picks| ==> picks[k] < |movies|
    ensures |s| == |picks|
    ensures forall k :: 0 <= k < |picks| ==> s[k] == (movies[picks[k]], watched[k])
  {
    seq(|picks|, k requires 0 <= k < |picks| => (movies[picks[k]], watched[k]))
  }

  /** How many draws hit `m`. */
  function Hits(s: seq<(MovieDoc, bool)>, m: MovieDoc): (n: nat)
    ensures n <= |s|
  {
    if s == [] then 0 else Hits(s[..|s| - 1], m) + (if s[|s| - 1].0 == m then 1 else 0)
  }

  /** How many draws hit `m` with the watched flag set. */
  function WatchedHits(s: seq<(MovieDoc, bool)>, m: MovieDoc): (n: nat)
    ensures n <= Hits(s, m)
  {
    if s == [] then 0 else WatchedHits(s[..|s| - 1], m) + (if s[|s| - 1] == (m, true) then 1 else 0)
  }

  lemma {:induction false} HitsAppend(a: seq<(MovieDoc, bool)>, b: seq<(MovieDoc, bool)>, m: MovieDoc)
    ensures Hits(a + b, m) == Hits(a, m) + Hits(b, m)
    ensures WatchedHits(a + b, m) == WatchedHits(a, m) + WatchedHits(b, m)
    decreases |b|
  {
    if b == [] {
      assert a + b == a;
    } else {
      var b' := b[..|b| - 1];
      HitsAppend(a, b', m);
      assert (a + b)[..|a + b| - 1] == a + b';
    }
  }

  /** One more draw adds its own hit. */
  lemma HitsStep(s: seq<(MovieDoc, bool)>, k: nat)
    requires k < |s|
    ensures forall m :: Hits(s[..k + 1], m) == Hits(s[..k], m) + (if s[k].0 == m then 1 else 0)
    ensures forall m :: WatchedHits(s[..k + 1], m) == WatchedHits(s[..k], m) + (if s[k] == (m, true) then 1 else 0)
  {
    assert s[..k + 1][..k] == s[..k];
  }

  /** A sample of distinct positions in a list of distinct movies hits each
      sampled movie exactly once, and each other movie never. */
  lemma {:induction false} DistinctSampleHitsOnce(movies: seq<MovieDoc>, picks: seq<nat>, watched: seq<bool>, i: nat)
    requires |watched| == |picks|
    requires forall k :: 0 <= k < |picks| ==> picks[k] < |movies|
    requires forall k, l :: 0 <= k < l < |picks| ==> picks[k] != picks[l]
    requires forall a, b :: 0 <= a < b < |movies| ==> movies[a] != movies[b]
    requires i < |movies|
    ensures Hits(Sampled(movies, picks, watched), movies[i]) == (if i in picks then 1 else 0)
    ensures i in picks ==>
      WatchedHits(Sampled(movies, picks, watched), movies[i]) == (if watched[IndexOf(picks, i)] then 1 else 0)
    decreases |picks|
  {
    if picks != [] {
      var n := |picks| - 1;
      var s := Sampled(movies, picks, watched);
      assert Sampled(movies, picks[..n], watched[..n]) == s[..n];
      DistinctSampleHitsOnce(movies, picks[..n], watched[..n], i);
      assert i in picks <==> i in picks[..n] || picks[n] == i by {
        assert picks == picks[..n] + [picks[n]];
      }
      assert s[n].0 == movies[i] <==> picks[n] == i;
      if i in picks[..n] {
        var k := IndexOf(picks[..n], i);
        assert IndexOf(picks, i) == k by { IndexOfPrefix(picks, n, i); }
      } else if picks[n] == i {
        assert IndexOf(picks, i) == n by { IndexOfLast(picks, i); }
      }
    }
  }

  /** The position of `x` in `s`. */
  function IndexOf(s: seq<nat>, x: nat): (k: nat)
    requires x in s
    ensures k < |s| && s[k] == x
    ensures forall j :: 0 <= j < k ==> s[j] != x
  {
    if s[0] == x then 0 else 1 + IndexOf(s[1..], x)
  }

  lemma IndexOfPrefix(s: seq<nat>, n: nat, x: nat)
    requires n <= |s| && x in s[..n]
    ensures IndexOf(s, x) == IndexOf(s[..n], x)
  {
    var k := IndexOf(s[..n], x);
    assert s[k] == x;
    assert forall j :: 0 <= j < k ==> s[j] == s[..n][j];
  }

  lemma IndexOfLast(s: seq<nat>, x: nat)
    requires |s| > 0 && s[|s| - 1] == x && x !in s[..|s| - 1]
    ensures IndexOf(s, x) == |s| - 1
  {
    assert forall j :: 0 <= j < |s| - 1 ==> s[j] == s[..|s| - 1][j];
  }

  // ---------------------------------------------------------------------
  // generate_user_movie_list and generate_user

  /** The counters one sampled movie gains. */
  method CountDraw(userMovie: MovieDoc, watched: bool)
    modifies userMovie`addedCount, userMovie`watchedCount
    ensures userMovie.addedCount == old(userMovie.addedCount) + 1
    ensures userMovie.watchedCount == old(userMovie.watchedCount) + (if watched then 1 else 0)
  {
    userMovie.addedCount := userMovie.addedCount + 1;
    if watched {
      userMovie.watchedCount := userMovie.watchedCount + 1;
    }
  }

  /** The entries a sample yields: each sampled movie's title and poster
      with the flag drawn for it, in draw order. */
  predicate EntriesOf(movieList: seq<ListEntry>, movies: seq<MovieDoc>, picks: seq<nat>, watched: seq<bool>) {
    && |movieList| == |picks| == |watched|
    && forall k :: 0 <= k < |picks| ==>
         picks[k] < |movies| && movieList[k] == ListEntry(movies[picks[k]].title, movies[picks[k]].poster, watched[k])
  }

  /** A generated user: the Faker identity given and the entries of its sample. */
  predicate UserOf(user: SeedUser, identity: (string, string, string), movies: seq<MovieDoc>,
                   picks: seq<nat>, watched: seq<bool>) {
    && user.email == identity.0 && user.password == identity.1 && user.username == identity.2
    && EntriesOf(user.moviesList, movies, picks, watched)
  }

  /** `generate_user_movie_list`, given the positions `random.sample` drew
      and the watched flag `random.choice` drew for each. */
  method GenerateUserMovieList(movies: seq<MovieDoc>, numMovies: nat, picks: seq<nat>, watched: seq<bool>)
    returns (movieList: seq<ListEntry>)
    requires |picks| == numMovies && |watched| == numMovies
    requires forall k :: 0 <= k < |picks| ==> picks[k] < |movies|
    requires forall k, l :: 0 <= k < l < |picks| ==> picks[k] != picks[l]
    modifies (set m | m in movies)`addedCount, (set m | m in movies)`watchedCount
    ensures EntriesOf(movieList, movies, picks, watched)
    ensures forall m :: m in movies ==>
      && m.addedCount == old(m.addedCount) + Hits(Sampled(movies, picks, watched), m)
      && m.watchedCount == old(m.watchedCount) + WatchedHits(Sampled(movies, picks, watched), m)
  {
    ghost var s := Sampled(movies, picks, watched);
    movieList := [];
    var k := 0;
    while k < numMovies
      invariant 0 <= k <= numMovies
      invariant EntriesOf(movieList, movies, picks[..k], watched[..k])
      invariant forall m :: m in movies ==>
        && m.addedCount == old(m.addedCount) + Hits(s[..k], m)
        && m.watchedCount == old(m.watchedCount) + WatchedHits(s[..k], m)
    {
      var userMovie := movies[picks[k]];
      HitsStep(s, k);
      label Before:
      CountDraw(userMovie, watched[k]);
      forall m | m in movies
        ensures m.addedCount == old(m.addedCount) + Hits(s[..k + 1], m)
        ensures m.watchedCount == old(m.watchedCount) + WatchedHits(s[..k + 1], m)
      {
        if m != userMovie {
          assert m.addedCount == old@Before(m.addedCount) && m.watchedCount == old@Before(m.watchedCount);
        }
      }
      EntriesSnoc(movieList, movies, picks, watched, k);
      movieList := movieList + [ListEntry(userMovie.title, userMovie.poster, watched[k])];
      k := k + 1;
    }
    assert s[..k] == s && picks[..k] == picks && watched[..k] == watched;
  }

  lemma EntriesSnoc(movieList: seq<ListEntry>, movies: seq<MovieDoc>, picks: seq<nat>, watched: seq<bool>, k: nat)
    requires k < |picks| == |watched| && picks[k] < |movies|
    requires EntriesOf(movieList, movies, picks[..k], watched[..k])
    ensures EntriesOf(movieList + [ListEntry(movies[picks[k]].title, movies[picks[k]].poster, watched[k])],
                      movies, picks[..k + 1], watched[..k + 1])
  {
  }

  /** Per-user draws: a flag for each position, each position in range. */
  predicate Drawable(movies: seq<MovieDoc>, picks: seq<seq<nat>>, watched: seq<seq<bool>>) {
    && |watched| == |picks|
    && (forall u :: 0 <= u < |picks| ==> |watched[u]| == |picks[u]|)
    && (forall u, k :: 0 <= u < |picks| && 0 <= k < |picks[u]| ==> picks[u][k] < |movies|)
  }

  /** Every draw of every user, in order. */
  function AllSampled(movies: seq<MovieDoc>, picks: seq<seq<nat>>, watched: seq<seq<bool>>): seq<(MovieDoc, bool)>
    requires Drawable(movies, picks, watched)
  {
    if picks == [] then []
    else
      var n := |picks| - 1;
      AllSampled(movies, picks[..n], watched[..n]) + Sampled(movies, picks[n], watched[n])
  }

  /** One more user's draws add their own hits. */
  lemma AllSampledStep(movies: seq<MovieDoc>, picks: seq<seq<nat>>, watched: seq<seq<bool>>, u: nat)
    requires Drawable(movies, picks, watched) && u < |picks|
    ensures Drawable(movies, picks[..u], watched[..u]) && Drawable(movies, picks[..u + 1], watched[..u + 1])
    ensures forall m ::
      && Hits(AllSampled(movies, picks[..u + 1], watched[..u + 1]), m) ==
           Hits(AllSampled(movies, picks[..u], watched[..u]), m) + Hits(Sampled(movies, picks[u], watched[u]), m)
      && WatchedHits(AllSampled(movies, picks[..u + 1], watched[..u + 1]), m) ==
           WatchedHits(AllSampled(movies, picks[..u], watched[..u]), m) + WatchedHits(Sampled(movies, picks[u], watched[u]), m)
  {
    assert picks[..u + 1][..u] == picks[..u] && watched[..u + 1][..u] == watched[..u];
    var before := AllSampled(movies, picks[..u], watched[..u]);
    assert AllSampled(movies, picks[..u + 1], watched[..u + 1]) == before + Sampled(movies, picks[u], watched[u]);
    forall m {
      HitsAppend(before, Sampled(movies, picks[u], watched[u]), m);
    }
  }

  /** `generate_user`: `n` users with the Faker identities given, each with
      a movie list of `numMoviesPerUser` entries from its own sample. */
  method GenerateUser(movies: seq<MovieDoc>, numMoviesPerUser: nat, n: nat,
                      identities: seq<(string, string, string)>, picks: seq<seq<nat>>, watched: seq<seq<bool>>)
    returns (users: seq<SeedUser>)
    requires |identities| == n && |picks| == n && |watched| == n
    requires forall u :: 0 <= u < n ==> |picks[u]| == numMoviesPerUser && |watched[u]| == numMoviesPerUser
    requires forall u, k :: 0 <= u < n && 0 <= k < numMoviesPerUser ==> picks[u][k] < |movies|
    requires forall u, k, l :: 0 <= u < n && 0 <= k < l < numMoviesPerUser ==> picks[u][k] != picks[u][l]
    modifies (set m | m in movies)`addedCount, (set m | m in movies)`watchedCount
    ensures |users| == n
    ensures forall u :: 0 <= u < n ==> UserOf(users[u], identities[u], movies, picks[u], watched[u])
    ensures forall m :: m in movies ==>
      && m.addedCount == old(m.addedCount) + Hits(AllSampled(movies, picks, watched), m)
      && m.watchedCount == old(m.watchedCount) + WatchedHits(AllSampled(movies, picks, watched), m)
  {
    users := [];
    var u := 0;
    while u < n
      invariant 0 <= u <= n
      invariant Drawable(movies, picks[..u], watched[..u])
      invariant |users| == u
      invariant forall v :: 0 <= v < u ==> UserOf(users[v], identities[v], movies, picks[v], watched[v])
      invariant forall m :: m in movies ==>
        && m.addedCount == old(m.addedCount) + Hits(AllSampled(movies, picks[..u], watched[..u]), m)
        && m.watchedCount == old(m.watchedCount) + WatchedHits(AllSampled(movies, picks[..u], watched[..u]), m)
    {
      AllSampledStep(movies, picks, watched, u);
      var movieList := GenerateUserMovieList(movies, numMoviesPerUser, picks[u], watched[u]);
      users := users + [SeedUser(identities[u].0, identities[u].1, identities[u].2, movieList)];
      u := u + 1;
    }
    assert picks[..n] == picks && watched[..n] == watched;
  }

  // ---------------------------------------------------------------------
  // Embedding a review into a movie

  /** The length of the leading run of reviews strictly older than `date`. */
  function OlderRun(reviews: seq<Review>, date: int): (k: nat)
    ensures k <= |reviews|
  {
    if reviews == [] || !(date > reviews[0].date) then 0 else 1 + OlderRun(reviews[1..], date)
  }

  /** The insert position the loop finds: the last entry of that run, or 0
      when the first entry is not older. */
  function InsertIndex(reviews: seq<Review>, date: int): nat {
    var k := OlderRun(reviews, date);
    if k == 0 then 0 else k - 1
  }

  /** The run is exactly the older prefix: every entry in it is older, and
      the entry after it, if any, is not. */
  lemma {:induction false} OlderRunIsPrefix(reviews: seq<Review>, date: int)
    ensures forall j :: 0 <= j < OlderRun(reviews, date) ==> reviews[j].date < date
    ensures OlderRun(reviews, date) < |reviews| ==> reviews[OlderRun(reviews, date)].date >= date
  {
    if reviews != [] && date > reviews[0].date {
      OlderRunIsPrefix(reviews[1..], date);
    }
  }

  /** Conversely, an older prefix followed by a non-older entry (or the end)
      has the run's length. */
  lemma {:induction false} OlderRunOfPrefix(reviews: seq<Review>, date: int, i: nat)
    requires i <= |reviews|
    requires forall j :: 0 <= j < i ==> reviews[j].date < date
    requires i < |reviews| ==> reviews[i].date >= date
    ensures OlderRun(reviews, date) == i
  {
    if i > 0 {
      OlderRunOfPrefix(reviews[1..], date, i - 1);
    }
  }

  /** The scan of `generate_reviews` over the embedded reviews. */
  method FindInsertIndex(reviews: seq<Review>, date: int) returns (indexToInsert: nat)
    ensures indexToInsert == InsertIndex(reviews, date)
    ensures reviews != [] ==> indexToInsert < |reviews|
  {
    indexToInsert := 0;
    var i := 0;
    while i < |reviews|
      invariant 0 <= i <= |reviews|
      invariant forall j :: 0 <= j < i ==> reviews[j].date < date
      invariant indexToInsert == (if i == 0 then 0 else i - 1)
    {
      if date > reviews[i].date {
        indexToInsert := i;
        i := i + 1;
      } else {
        break;
      }
    }
    OlderRunOfPrefix(reviews, date, i);
  }

  /** The embedded reviews after adding `review`: appended while fewer than
      five, otherwise inserted at the scan's index and cut back to five. */
  function Embedded(reviews: seq<Review>, review: Review): seq<Review> {
    if |reviews| >= 5 then
      var i := InsertIndex(reviews, review.date);
      (reviews[..i] + [review] + reviews[i..])[..5]
    else reviews + [review]
  }

  /** The list of a movie never holds more than five reviews after an
      insertion, and a short list simply grows at the end. */
  lemma EmbeddedBounded(reviews: seq<Review>, review: Review)
    ensures |Embedded(reviews, review)| <= 5
    ensures |reviews| < 5 ==> Embedded(reviews, review) == reviews + [review]
  {
    OlderRunIsPrefix(reviews, review.date);
  }

  /** On a full list the new review always survives at the scan's index and
      exactly the former last entry is dropped. */
  lemma EmbeddedIntoFull(reviews: seq<Review>, review: Review)
    requires |reviews| == 5
    ensures var i := InsertIndex(reviews, review.date);
      && i <= 4
      && Embedded(reviews, review) == reviews[..i] + [review] + reviews[i..4]
      && Embedded(reviews, review)[i] == review
  {
    var i := InsertIndex(reviews, review.date);
    assert (reviews[..i] + [review] + reviews[i..])[..5] == reviews[..i] + [review] + reviews[i..4];
  }

  /** The truncation does not keep the five most recent reviews: with five
      reviews older than the new one, the newest old review is dropped
      while older ones stay. */
  lemma EmbeddedNotMostRecent(u: string, t: string, c: string, v: real)
    ensures var old5 := [Review(u, t, c, v, 1), Review(u, t, c, v, 2), Review(u, t, c, v, 3),
                         Review(u, t, c, v, 4), Review(u, t, c, v, 5)];
      && Embedded(old5, Review(u, t, c, v, 6)) ==
           [Review(u, t, c, v, 1), Review(u, t, c, v, 2), Review(u, t, c, v, 3),
            Review(u, t, c, v, 4), Review(u, t, c, v, 6)]
  {
    var old5 := [Review(u, t, c, v, 1), Review(u, t, c, v, 2), Review(u, t, c, v, 3),
                 Review(u, t, c, v, 4), Review(u, t, c, v, 5)];
    OlderRunOfPrefix(old5, 6, 5);
  }

  /** On the same reviews, keeping the most recent five drops the oldest. */
  lemma RecentDropsOldest(u: string, t: string, c: string, v: real)
    ensures var old5 := [Review(u, t, c, v, 1), Review(u, t, c, v, 2), Review(u, t, c, v, 3),
                         Review(u, t, c, v, 4), Review(u, t, c, v, 5)];
      EmbeddedRecent(old5, Review(u, t, c, v, 6)) ==
        [Review(u, t, c, v, 2), Review(u, t, c, v, 3), Review(u, t, c, v, 4),
         Review(u, t, c, v, 5), Review(u, t, c, v, 6)]
  {
    var old5 := [Review(u, t, c, v, 1), Review(u, t, c, v, 2), Review(u, t, c, v, 3),
                 Review(u, t, c, v, 4), Review(u, t, c, v, 5)];
    var all := old5 + [Review(u, t, c, v, 6)];
    assert forall j :: 0 < j < 6 ==> all[0].date < all[j].date;
    OldestOfEarliest(all);
  }

  /** A review strictly older than all the others is the oldest. */
  lemma OldestOfEarliest(s: seq<Review>)
    requires s != []
    requires forall j :: 0 < j < |s| ==> s[0].date < s[j].date
    ensures OldestIndex(s) == 0
  {
  }

  /** The reviews embedded, in order, one after the other. */
  function EmbedAll(reviews: seq<Review>, added: seq<Review>): seq<Review> {
    if added == [] then reviews
    else Embedded(EmbedAll(reviews, added[..|added| - 1]), added[|added| - 1])
  }

  /** Starting from a movie's empty list, any number of insertions leaves at
      most five reviews. */
  lemma {:induction false} EmbedAllBounded(reviews: seq<Review>, added: seq<Review>)
    requires |reviews| <= 5
    ensures |EmbedAll(reviews, added)| <= 5
  {
    if added != [] {
      EmbeddedBounded(EmbedAll(reviews, added[..|added| - 1]), added[|added| - 1]);
    }
  }

  lemma EmbedAllSnoc(reviews: seq<Review>, added: seq<Review>, review: Review)
    ensures EmbedAll(reviews, added + [review]) == Embedded(EmbedAll(reviews, added), review)
  {
    assert (added + [review])[..|added|] == added;
  }

  /** Inserting one review into a movie's embedded list, in place. */
  method EmbedReview(movie: MovieDoc, review: Review)
    modifies movie`reviews
    ensures movie.reviews == Embedded(old(movie.reviews), review)
  {
    if |movie.reviews| >= 5 {
      var indexToInsert := FindInsertIndex(movie.reviews, review.date);
      movie.reviews := movie.reviews[..indexToInsert] + [review] + movie.reviews[indexToInsert..];
      movie.reviews := movie.reviews[..5];
    } else {
      movie.reviews := movie.reviews + [review];
    }
  }

  // ---------------------------------------------------------------------
  // Keeping the five most recent reviews

  /** The position of the oldest review: the first one with the least date. */
  function OldestIndex(s: seq<Review>): (i: nat)
    requires s != []
    ensures i < |s|
    ensures forall j :: 0 <= j < |s| ==> s[i].date <= s[j].date
    ensures forall j :: 0 <= j < i ==> s[j].date > s[i].date
    decreases |s|
  {
    if |s| == 1 then 0
    else
      var i := OldestIndex(s[..|s| - 1]);
      if s[|s| - 1].date < s[i].date then |s| - 1 else i
  }

  /** Dropping an oldest review drops nothing more recent than what stays. */
  lemma DropOldest(all: seq<Review>, i: nat)
    requires i < |all|
    requires forall j :: 0 <= j < |all| ==> all[i].date <= all[j].date
    ensures multiset(all[..i] + all[i + 1..]) + multiset{all[i]} == multiset(all)
    ensures forall x, k :: x in all && x !in all[..i] + all[i + 1..] && k in all[..i] + all[i + 1..] ==>
      x.date <= k.date
  {
    var rest := all[..i] + all[i + 1..];
    assert all == all[..i] + [all[i]] + all[i + 1..];
    forall x | x in all && x !in rest
      ensures x == all[i]
    {
      var j :| 0 <= j < |all| && all[j] == x;
    }
    forall k | k in rest
      ensures k in all
    {
      assert multiset(rest)[k] > 0;
    }
  }

  /** The embedded reviews after adding `review` when the list keeps the
      most recent five: appended while fewer than five, otherwise the
      oldest of the six is dropped and the others keep their order. */
  function EmbeddedRecent(reviews: seq<Review>, review: Review): (r: seq<Review>)
    ensures |reviews| < 5 ==> r == reviews + [review]
    ensures |reviews| >= 5 ==> |r| == |reviews|
  {
    var all := reviews + [review];
    if |reviews| < 5 then all
    else
      var i := OldestIndex(all);
      all[..i] + all[i + 1..]
  }

  /** Only reviews that were there or the new one stay, and none left out
      is more recent than one kept. */
  lemma EmbeddedRecentKeepsLatest(reviews: seq<Review>, review: Review)
    ensures var r := EmbeddedRecent(reviews, review);
      && multiset(r) <= multiset(reviews + [review])
      && forall x, k :: x in reviews + [review] && x !in r && k in r ==> x.date <= k.date
  {
    if |reviews| >= 5 {
      DropOldest(reviews + [review], OldestIndex(reviews + [review]));
    }
  }

  /** The scan for the oldest review. */
  method FindOldestIndex(s: seq<Review>) returns (i: nat)
    requires s != []
    ensures i == OldestIndex(s)
  {
    i := 0;
    var j := 1;
    while j < |s|
      invariant 1 <= j <= |s|
      invariant i == OldestIndex(s[..j])
    {
      assert s[..j + 1][..j] == s[..j];
      if s[j].date < s[i].date {
        i := j;
      }
      j := j + 1;
    }
    assert s[..j] == s;
  }

  /** Embedding one review so that the five most recent stay, in place. */
  method EmbedRecentReview(movie: MovieDoc, review: Review)
    modifies movie`reviews
    ensures movie.reviews == EmbeddedRecent(old(movie.reviews), review)
  {
    var all := movie.reviews + [review];
    if |movie.reviews| >= 5 {
      var i := FindOldestIndex(all);
      movie.reviews := all[..i] + all[i + 1..];
    } else {
      movie.reviews := all;
    }
  }

  /** The reviews embedded so, in order, one after the other. */
  function EmbedAllRecent(reviews: seq<Review>, added: seq<Review>): seq<Review> {
    if added == [] then reviews
    else EmbeddedRecent(EmbedAllRecent(reviews, added[..|added| - 1]), added[|added| - 1])
  }

  /** A review older than every kept one stays out: the new review either
      is dropped itself or is no older than it. */
  lemma RecentStep(kept: seq<Review>, review: Review, x: Review)
    requires |kept| >= 5
    requires x !in kept + [review]
    requires forall k :: k in kept ==> x.date <= k.date
    ensures forall k :: k in EmbeddedRecent(kept, review) ==> x.date <= k.date
  {
    var all := kept + [review];
    var i := OldestIndex(all);
    var r := EmbeddedRecent(kept, review);
    EmbeddedRecentKeepsLatest(kept, review);
    if review.date < x.date {
      assert i == |kept|;
      assert r == kept;
    } else {
      forall k | k in r
        ensures x.date <= k.date
      {
        assert multiset(r)[k] > 0;
      }
    }
  }

  /** Seeding an empty list with the corrected embedding keeps the most
      recent reviews: at most five, the first five as they came, only
      reviews that were added, and none left out that is more recent than
      one kept. */
  lemma EmbedAllRecentKeepsLatest(added: seq<Review>)
    ensures var kept := EmbedAllRecent([], added);
      && |kept| == (if |added| < 5 then |added| else 5)
      && (|added| <= 5 ==> kept == added)
      && multiset(kept) <= multiset(added)
      && forall x, k :: x in added && x !in kept && k in kept ==> x.date <= k.date
  {
    RecentShape(added);
    RecentFromAdded(added);
    RecentNewest(added);
  }

  lemma {:induction false} RecentShape(added: seq<Review>)
    ensures var kept := EmbedAllRecent([], added);
      && |kept| == (if |added| < 5 then |added| else 5)
      && (|added| <= 5 ==> kept == added)
    decreases |added|
  {
    if added != [] {
      var n := |added| - 1;
      RecentShape(added[..n]);
      assert added == added[..n] + [added[n]];
    }
  }

  lemma {:induction false} RecentFromAdded(added: seq<Review>)
    ensures multiset(EmbedAllRecent([], added)) <= multiset(added)
    decreases |added|
  {
    if added != [] {
      var n := |added| - 1;
      var kept := EmbedAllRecent([], added[..n]);
      RecentFromAdded(added[..n]);
      EmbeddedRecentKeepsLatest(kept, added[n]);
      assert added == added[..n] + [added[n]];
      assert multiset(added) == multiset(added[..n]) + multiset{added[n]};
      assert multiset(kept + [added[n]]) == multiset(kept) + multiset{added[n]};
    }
  }

  lemma {:induction false} RecentNewest(added: seq<Review>)
    ensures var kept := EmbedAllRecent([], added);
      forall x, k :: x in added && x !in kept && k in kept ==> x.date <= k.date
    decreases |added|
  {
    if added != [] {
      var n := |added| - 1;
      var before := added[..n];
      var review := added[n];
      RecentNewest(before);
      RecentShape(before);
      var kept := EmbedAllRecent([], before);
      assert added == before + [review];
      if |kept| == 5 {
        RecentNewestStep(before, review, kept);
      } else {
        assert EmbeddedRecent(kept, review) == added;
      }
    }
  }

  /** One more review into a full list keeps the newest ones. */
  lemma RecentNewestStep(before: seq<Review>, review: Review, kept: seq<Review>)
    requires |kept| == 5
    requires forall x, k :: x in before && x !in kept && k in kept ==> x.date <= k.date
    ensures var kept' := EmbeddedRecent(kept, review);
      forall x, k :: x in before + [review] && x !in kept' && k in kept' ==> x.date <= k.date
  {
    var kept' := EmbeddedRecent(kept, review);
    EmbeddedRecentKeepsLatest(kept, review);
    forall x, k | x in before + [review] && x !in kept' && k in kept'
      ensures x.date <= k.date
    {
      if x !in kept + [review] {
        assert x in before;
        RecentStep(kept, review, x);
      }
    }
  }

  // ---------------------------------------------------------------------
  // generate_reviews

  /** The random and Faker values drawn for one review: the movie's
      position, the vote, the username's position, title, content and date. */
  datatype Draw = Draw(movie: nat, vote: real, user: nat, title: string, content: string, date: int)

  /** The reviews among `reviews` whose draw chose `m`, in order. */
  function ReviewsOf(movies: seq<MovieDoc>, draws: seq<Draw>, reviews: seq<Review>, m: MovieDoc): seq<Review>
    requires |reviews| == |draws|
    requires forall k :: 0 <= k < |draws| ==> draws[k].movie < |movies|
  {
    if draws == [] then []
    else
      var n := |draws| - 1;
      ReviewsOf(movies, draws[..n], reviews[..n], m) + (if movies[draws[n].movie] == m then [reviews[n]] else [])
  }

  /** The number of draws that chose `m`. */
  function Chosen(movies: seq<MovieDoc>, draws: seq<Draw>, m: MovieDoc): nat
    requires forall k :: 0 <= k < |draws| ==> draws[k].movie < |movies|
  {
    if draws == [] then 0
    else
      var n := |draws| - 1;
      Chosen(movies, draws[..n], m) + (if movies[draws[n].movie] == m then 1 else 0)
  }

  /** One more draw adds its own choice and its own review. */
  lemma DrawStep(movies: seq<MovieDoc>, draws: seq<Draw>, reviews: seq<Review>, review: Review, k: nat)
    requires k < |draws| && |reviews| == k
    requires forall j :: 0 <= j < |draws| ==> draws[j].movie < |movies|
    ensures forall m ::
      Chosen(movies, draws[..k + 1], m) == Chosen(movies, draws[..k], m) + (if movies[draws[k].movie] == m then 1 else 0)
    ensures forall m :: movies[draws[k].movie] != m ==>
      ReviewsOf(movies, draws[..k + 1], reviews + [review], m) == ReviewsOf(movies, draws[..k], reviews, m)
    ensures forall m :: movies[draws[k].movie] == m ==>
      ReviewsOf(movies, draws[..k + 1], reviews + [review], m) == ReviewsOf(movies, draws[..k], reviews, m) + [review]
  {
    assert draws[..k + 1][..k] == draws[..k];
    assert (reviews + [review])[..k] == reviews;
    forall m | movies[draws[k].movie] != m
      ensures ReviewsOf(movies, draws[..k + 1], reviews + [review], m) == ReviewsOf(movies, draws[..k], reviews, m)
    {
      var before := ReviewsOf(movies, draws[..k], reviews, m);
      assert ReviewsOf(movies, draws[..k + 1], reviews + [review], m) == before + [];
      assert before + [] == before;
    }
  }

  /** What one review does to its movie: one more vote, and the review embedded. */
  method ReviewMovie(movie: MovieDoc, review: Review)
    modifies movie`voteCount, movie`reviews
    ensures movie.voteCount == old(movie.voteCount) + 1
    ensures movie.reviews == Embedded(old(movie.reviews), review)
  {
    movie.voteCount := movie.voteCount + 1;
    EmbedReview(movie, review);
  }

  /** `reviews` holds the reviews of the first draws, in order. */
  predicate Written(reviews: seq<Review>, usernames: seq<string>, draws: seq<Draw>) {
    && |reviews| <= |draws|
    && forall j :: 0 <= j < |reviews| ==>
         draws[j].user < |usernames|
         && reviews[j] == Review(usernames[draws[j].user], draws[j].title, draws[j].content, draws[j].vote, draws[j].date)
  }

  lemma WrittenSnoc(reviews: seq<Review>, usernames: seq<string>, draws: seq<Draw>)
    requires Written(reviews, usernames, draws) && |reviews| < |draws|
    requires draws[|reviews|].user < |usernames|
    ensures var d := draws[|reviews|];
      Written(reviews + [Review(usernames[d.user], d.title, d.content, d.vote, d.date)], usernames, draws)
  {
  }

  /** `generate_reviews`: `n` reviews, one per draw; each draw's movie gains
      one vote and has the review embedded. */
  method GenerateReviews(usernames: seq<string>, movies: seq<MovieDoc>, n: nat, draws: seq<Draw>)
    returns (reviews: seq<Review>)
    requires |draws| == n
    requires forall k :: 0 <= k < n ==> draws[k].movie < |movies| && draws[k].user < |usernames|
    modifies (set m | m in movies)`voteCount, (set m | m in movies)`reviews
    ensures |reviews| == n
    ensures forall k :: 0 <= k < n ==>
      reviews[k] == Review(usernames[draws[k].user], draws[k].title, draws[k].content, draws[k].vote, draws[k].date)
    ensures forall m :: m in movies ==>
      && m.voteCount == old(m.voteCount) + Chosen(movies, draws, m)
      && m.reviews == EmbedAll(old(m.reviews), ReviewsOf(movies, draws, reviews, m))
  {
    reviews := [];
    var k := 0;
    while k < n
      invariant 0 <= k <= n
      invariant |reviews| == k
      invariant Written(reviews, usernames, draws)
      invariant forall m :: m in movies ==>
        && m.voteCount == old(m.voteCount) + Chosen(movies, draws[..k], m)
        && m.reviews == EmbedAll(old(m.reviews), ReviewsOf(movies, draws[..k], reviews, m))
    {
      var d := draws[k];
      var movie := movies[d.movie];
      var review := Review(usernames[d.user], d.title, d.content, d.vote, d.date);
      label Before:
      ReviewMovie(movie, review);
      var reviews' := reviews + [review];
      DrawStep(movies, draws, reviews, review, k);
      forall m | m in movies
        ensures m.voteCount == old(m.voteCount) + Chosen(movies, draws[..k + 1], m)
        ensures m.reviews == EmbedAll(old(m.reviews), ReviewsOf(movies, draws[..k + 1], reviews', m))
      {
        if m == movie {
          EmbedAllSnoc(old(m.reviews), ReviewsOf(movies, draws[..k], reviews, m), review);
        } else {
          assert m.voteCount == old@Before(m.voteCount) && m.reviews == old@Before(m.reviews);
        }
      }
      WrittenSnoc(reviews, usernames, draws);
      reviews := reviews';
      k := k + 1;
    }
    assert draws[..n] == draws;
  }

  /** Seeding reviews into freshly loaded movies leaves each with at most
      five embedded reviews. */
  lemma SeededMoviesBounded(movies: seq<MovieDoc>, draws: seq<Draw>, reviews: seq<Review>, m: MovieDoc)
    requires |reviews| == |draws|
    requires forall k :: 0 <= k < |draws| ==> draws[k].movie < |movies|
    ensures |EmbedAll([], ReviewsOf(movies, draws, reviews, m))| <= 5
  {
    EmbedAllBounded([], ReviewsOf(movies, draws, reviews, m));
  }
}
