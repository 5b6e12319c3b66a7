/**
 * The movie queries of the backend's database layer: how the filter
 * document is built from the optional arguments, which projection is used,
 * and how a page of results is cut out of the matching movies.
 *
 * The movie collection is a sequence of stored movies, and `find` is the
 * in-order selection of those matching the filter, under MongoDB's rules for
 * the operators used here. Failures inside the `try` blocks are returned as
 * values (`Err`), as the Python returns the exception object.
 */
module MovieQueries {
  import opened Wrappers
  import Ingest

  /** A stored movie: the document the loader writes into the collection. */
  type Movie = Ingest.Movie

  /** A condition on one field of the filter document. */
  datatype Condition =
    | Equals(text: string)         // {"field": "value"}
    | EqualsInt(number: int)       // {"field": 1999}
    | In(values: seq<string>)      // {"field": {"$in": [...]}}
    | All(values: seq<string>)     // {"field": {"$all": [...]}}

  /** A filter document. */
  type Query = map<string, Condition>

  /** An argument that may be one name or a list of names. */
  datatype Names = One(name: string) | Many(names: seq<string>)

  /** A projection document. */
  type Projection = map<string, int>

  /** The six fields shown when no projection is given. */
  const DefaultProjection: Projection :=
    map["_id" := 1, "title" := 1, "poster" := 1, "release_year" := 1, "popularity" := 1, "vote_average" := 1]

  /** Python truthiness of the optional arguments. */
  predicate TruthyText(t: Option<string>) {
    t.Some? && t.value != ""
  }

  predicate TruthyNames(n: Option<Names>) {
    match n
    case None => false
    case Some(One(s)) => s != ""
    case Some(Many(l)) => l != []
  }

  /** A single name wrapped in a one-element list. */
  function AsList(n: Names): seq<string> {
    match n
    case One(s) => [s]
    case Many(l) => l
  }

  // ---------------------------------------------------------------------
  // Matching (MongoDB semantics of the operators used)

  /** Whether some element of `values` occurs in `field`, the rule for `$in`
      on an array field. */
  predicate AnyIn(field: seq<string>, values: seq<string>) {
    exists v :: v in values && v in field
  }

  /** The names of a list of credits, as `"field.full_name"` reaches them. */
  function CreditNames(credits: seq<Ingest.Credit>): (r: seq<string>)
    ensures |r| == |credits|
    ensures forall k :: 0 <= k < |credits| ==> r[k] == credits[k].fullName
  {
    seq(|credits|, k requires 0 <= k < |credits| => credits[k].fullName)
  }

  predicate FieldMatches(m: Movie, key: string, c: Condition) {
    match c
    case Equals(t) =>
      if key == "title" then m.title == t
      else if key == "genres" then t in m.genres
      else false
    case EqualsInt(n) => key == "release_year" && m.releaseYear == Some(n)
    case In(vs) =>
      // `directors` holds credit subdocuments, which never equal a name,
      // and no stored movie has a `cast` field: only the dotted paths reach
      // the names
      if key == "directors.full_name" then AnyIn(CreditNames(m.directors), vs)
      else if key == "actors.full_name" then AnyIn(CreditNames(m.actors), vs)
      else false
    case All(vs) =>
      // `$all` with an empty list matches no document
      key == "genres" && vs != [] && forall v :: v in vs ==> v in m.genres
  }

  predicate Matches(m: Movie, q: Query) {
    forall key :: key in q ==> FieldMatches(m, key, q[key])
  }

  /** The movies satisfying `p`, in collection order. */
  function Select(coll: seq<Movie>, p: Movie -> bool): (r: seq<Movie>)
    ensures |r| <= |coll|
    ensures forall m :: m in r <==> m in coll && p(m)
    decreases |coll|
  {
    if coll == [] then []
    else (if p(coll[0]) then [coll[0]] else []) + Select(coll[1..], p)
  }

  /** `collection.find(query)`. */
  function Find(coll: seq<Movie>, q: Query): seq<Movie> {
    Select(coll, m => Matches(m, q))
  }

  /** Selections by predicates that agree on the collection are equal. */
  lemma {:induction false} SelectSame(coll: seq<Movie>, p: Movie -> bool, p': Movie -> bool)
    requires forall m :: m in coll ==> p(m) == p'(m)
    ensures Select(coll, p) == Select(coll, p')
    decreases |coll|
  {
    if coll != [] {
      SelectSame(coll[1..], p, p');
    }
  }

  /** Nothing is selected when no movie satisfies `p`. */
  lemma {:induction false} SelectNone(coll: seq<Movie>, p: Movie -> bool)
    requires forall m :: m in coll ==> !p(m)
    ensures Select(coll, p) == []
    decreases |coll|
  {
    if coll != [] {
      assert forall m :: m in coll[1..] ==> m in coll;
      SelectNone(coll[1..], p);
    }
  }

  // ---------------------------------------------------------------------
  // Pagination

  /** `cursor.skip(offset).limit(limit)`: a limit of 0 means no limit, a
      negative one caps the page at its absolute value. */
  function Window(results: seq<Movie>, offset: nat, limit: int): seq<Movie> {
    var skipped := if offset <= |results| then results[offset..] else [];
    var cap := if limit < 0 then -limit else limit;
    if limit == 0 || cap >= |skipped| then skipped else skipped[..cap]
  }

  /** A page of results: the movies, the total the code reports, and the
      projection the movies are returned with. */
  datatype Page = Page(movies: seq<Movie>, total: nat, projection: Projection)

  /** `paginate_query`: pymongo's `skip` raises ValueError for a negative
      offset. The total counts the whole collection (`count_documents({})`). */
  function PaginateQuery(coll: seq<Movie>, q: Query, projection: Projection, offset: int, limit: int)
    : Result<Page, string>
  {
    if offset < 0 then Err("ValueError")
    else Ok(Page(Window(Find(coll, q), offset, limit), |coll|, projection))
  }

  /** `paginate_query` with the total its caller documents, the number of
      movies matching the query (`count_documents(query)`). */
  function PaginateMatching(coll: seq<Movie>, q: Query, projection: Projection, offset: int, limit: int)
    : Result<Page, string>
  {
    if offset < 0 then Err("ValueError")
    else Ok(Page(Window(Find(coll, q), offset, limit), |Find(coll, q)|, projection))
  }

  /** A page is a contiguous run of the matches, starting at the offset and
      no longer than a non-zero limit. */
  lemma WindowIsSlice(results: seq<Movie>, offset: nat, limit: int)
    ensures var w := Window(results, offset, limit);
      && (limit != 0 ==> |w| <= (if limit < 0 then -limit else limit))
      && (offset <= |results| ==> w == results[offset..offset + |w|])
      && (offset >= |results| ==> w == [])
      && (limit == 0 && offset <= |results| ==> |w| == |results| - offset)
  {
  }

  /** The reported total ignores the query: it is the collection's size,
      however few movies match. */
  lemma TotalIgnoresQuery(coll: seq<Movie>, q: Query, projection: Projection, offset: nat, limit: int)
    ensures PaginateQuery(coll, q, projection, offset, limit).Ok?
    ensures PaginateQuery(coll, q, projection, offset, limit).value.total == |coll|
  {
  }

  /** A stored movie with only a title and a year set. */
  function Bare(title: string, year: int): Movie {
    Ingest.Movie(title, 0, Some(year), "", "", [], [], [], [], [], [], [], 0, 0)
  }

  /** So it differs from the number of matches as soon as a movie fails the
      filter. */
  lemma TotalCanExceedMatches()
    ensures var coll := [Bare("Heat", 1995), Bare("Up", 2009)];
            var q := map["title" := Equals("Up")];
      && |Find(coll, q)| == 1
      && PaginateQuery(coll, q, DefaultProjection, 0, 10).value.total == 2
      && PaginateMatching(coll, q, DefaultProjection, 0, 10).value.total == 1
  {
    var coll := [Bare("Heat", 1995), Bare("Up", 2009)];
    var q := map["title" := Equals("Up")];
    assert !Matches(coll[0], q) by {
      assert !FieldMatches(coll[0], "title", q["title"]);
    }
    assert Matches(coll[1], q);
    assert Find(coll, q) == [coll[1]];
  }

  /** The corrected total is the number of matches: it differs from the
      written one only in the total, it is never more than the collection's
      size, and the page never reaches past it. */
  lemma MatchingTotalCountsMatches(coll: seq<Movie>, q: Query, projection: Projection, offset: int, limit: int)
    ensures PaginateMatching(coll, q, projection, offset, limit).Ok? <==> offset >= 0
    ensures offset >= 0 ==>
      var p := PaginateMatching(coll, q, projection, offset, limit).value;
      && p.total == |Find(coll, q)|
      && p.total <= |coll|
      && (forall m :: m in coll && Matches(m, q) ==> p.total > 0)
      && (offset <= p.total ==> offset + |p.movies| <= p.total)
      && p.movies == PaginateQuery(coll, q, projection, offset, limit).value.movies
  {
    if offset >= 0 {
      WindowIsSlice(Find(coll, q), offset, limit);
    }
  }

  // ---------------------------------------------------------------------
  // Projections

  /** `projection or default_projection`. */
  function EffectiveProjection(projection: Option<Projection>): Projection {
    if projection.Some? && projection.value != map[] then projection.value else DefaultProjection
  }

  lemma EffectiveProjectionFallback(projection: Option<Projection>)
    ensures EffectiveProjection(projection) != map[]
    ensures projection.None? || projection.value == map[] ==>
      EffectiveProjection(projection).Keys == {"_id", "title", "poster", "release_year", "popularity", "vote_average"}
    ensures projection.Some? && projection.value != map[] ==> EffectiveProjection(projection) == projection.value
  {
    assert "_id" in DefaultProjection;
  }

  // ---------------------------------------------------------------------
  // get_movies

  /** The keys under which the director and actor filters are placed. */
  datatype PersonKeys = PersonKeys(directors: string, actors: string) {
    predicate Distinct() {
      directors != actors && directors != "title" && actors != "title"
    }
  }

  /** The keys `get_movies` uses: neither is where the loader stores names. */
  const AsWritten := PersonKeys("directors", "cast")

  /** The paths of the credit names in a stored movie. */
  const ByName := PersonKeys("directors.full_name", "actors.full_name")

  /** `query` holds exactly the truthy filters: the title as an equality,
      the directors and the actors (a single name wrapped in a list) as
      `$in` conditions under `keys`. */
  predicate Built(query: Query, title: Option<string>, directors: Option<Names>, actors: Option<Names>,
                  keys: PersonKeys)
  {
    && query.Keys <= {"title", keys.directors, keys.actors}
    && ("title" in query <==> TruthyText(title))
    && ("title" in query ==> query["title"] == Equals(title.value))
    && (keys.directors in query <==> TruthyNames(directors))
    && (keys.directors in query ==> query[keys.directors] == In(AsList(directors.value)))
    && (keys.actors in query <==> TruthyNames(actors))
    && (keys.actors in query ==> query[keys.actors] == In(AsList(actors.value)))
  }

  /** The filter document of `get_movies`, built key by key. */
  method BuildMoviesQuery(title: Option<string>, directors: Option<Names>, actors: Option<Names>,
                          keys: PersonKeys)
    returns (query: Query)
    requires keys.Distinct()
    ensures Built(query, title, directors, actors, keys)
  {
    query := map[];
    if TruthyText(title) {
      query := query["title" := Equals(title.value)];
    }
    if TruthyNames(directors) {
      var ds := directors.value;
      if ds.One? {
        ds := Many([ds.name]);
      }
      query := query[keys.directors := In(ds.names)];
    }
    if TruthyNames(actors) {
      var cs := actors.value;
      if cs.One? {
        cs := Many([cs.name]);
      }
      query := query[keys.actors := In(cs.names)];
    }
  }

  /** What `get_movies`'s filters mean, stated directly on a movie: the
      title is the given one, some director is among the given names, some
      actor is among the given names; an absent or empty filter admits every
      movie. */
  predicate WantedBy(m: Movie, title: Option<string>, directors: Option<Names>, actors: Option<Names>) {
    && (TruthyText(title) ==> m.title == title.value)
    && (TruthyNames(directors) ==> AnyIn(CreditNames(m.directors), AsList(directors.value)))
    && (TruthyNames(actors) ==> AnyIn(CreditNames(m.actors), AsList(actors.value)))
  }

  /** Under the credit-name paths the filter document selects exactly the
      wanted movies; under the keys `get_movies` uses it does so only when
      no director or actor filter is given. */
  lemma QueryMeansWanted(m: Movie, query: Query, title: Option<string>, directors: Option<Names>,
                         actors: Option<Names>, keys: PersonKeys)
    requires Built(query, title, directors, actors, keys)
    requires keys == ByName || (!TruthyNames(directors) && !TruthyNames(actors))
    ensures Matches(m, query) <==> WantedBy(m, title, directors, actors)
  {
    if WantedBy(m, title, directors, actors) {
      forall key | key in query ensures FieldMatches(m, key, query[key]) {
        assert key == "title" || key == keys.directors || key == keys.actors;
      }
    }
    if Matches(m, query) {
      if TruthyText(title) { assert FieldMatches(m, "title", query["title"]); }
      if TruthyNames(directors) { assert FieldMatches(m, keys.directors, query[keys.directors]); }
      if TruthyNames(actors) { assert FieldMatches(m, keys.actors, query[keys.actors]); }
    }
  }

  /** Under the keys `get_movies` uses, a director or actor filter matches
      no stored movie at all. */
  lemma PersonFilterMatchesNothing(m: Movie, query: Query, title: Option<string>, directors: Option<Names>,
                                   actors: Option<Names>)
    requires Built(query, title, directors, actors, AsWritten)
    requires TruthyNames(directors) || TruthyNames(actors)
    ensures !Matches(m, query)
  {
    if TruthyNames(directors) {
      assert !FieldMatches(m, "directors", query["directors"]);
    } else {
      assert !FieldMatches(m, "cast", query["cast"]);
    }
  }

  /** `get_movies` as written: a director or actor filter gives an empty
      page; otherwise the page of movies with the title. */
  method GetMovies(coll: seq<Movie>, offset: int, moviesPerPage: int, title: Option<string>,
                   directors: Option<Names>, actors: Option<Names>, projection: Option<Projection>)
    returns (r: Result<Page, string>)
    ensures offset < 0 <==> r.Err?
    ensures r.Ok? && (TruthyNames(directors) || TruthyNames(actors)) ==> r.value.movies == []
    ensures r.Ok? && !TruthyNames(directors) && !TruthyNames(actors) ==>
      r.value.movies == Window(Select(coll, m => WantedBy(m, title, directors, actors)), offset, moviesPerPage)
    ensures r.Ok? ==> r.value.total == |coll|
    ensures r.Ok? ==> r.value.projection == EffectiveProjection(projection)
  {
    var query := BuildMoviesQuery(title, directors, actors, AsWritten);
    var fields := EffectiveProjection(projection);
    if TruthyNames(directors) || TruthyNames(actors) {
      forall m | m in coll
        ensures !Matches(m, query)
      {
        PersonFilterMatchesNothing(m, query, title, directors, actors);
      }
      SelectNone(coll, m => Matches(m, query));
    } else {
      forall m | m in coll
        ensures Matches(m, query) == WantedBy(m, title, directors, actors)
      {
        QueryMeansWanted(m, query, title, directors, actors, AsWritten);
      }
      SelectSame(coll, m => Matches(m, query), m => WantedBy(m, title, directors, actors));
    }
    r := PaginateQuery(coll, query, fields, offset, moviesPerPage);
  }

  /** `get_movies` with the filters on the credit names and the total of
      the matches: a page of the wanted movies and their number, or the
      error for a negative offset. */
  method GetMoviesByName(coll: seq<Movie>, offset: int, moviesPerPage: int, title: Option<string>,
                         directors: Option<Names>, actors: Option<Names>, projection: Option<Projection>)
    returns (r: Result<Page, string>)
    ensures offset < 0 <==> r.Err?
    ensures r.Ok? ==>
      r.value.movies == Window(Select(coll, m => WantedBy(m, title, directors, actors)), offset, moviesPerPage)
    ensures r.Ok? ==> r.value.total == |Select(coll, m => WantedBy(m, title, directors, actors))|
    ensures r.Ok? ==> r.value.projection == EffectiveProjection(projection)
  {
    var query := BuildMoviesQuery(title, directors, actors, ByName);
    var fields := EffectiveProjection(projection);
    forall m | m in coll
      ensures Matches(m, query) == WantedBy(m, title, directors, actors)
    {
      QueryMeansWanted(m, query, title, directors, actors, ByName);
    }
    SelectSame(coll, m => Matches(m, query), m => WantedBy(m, title, directors, actors));
    r := PaginateMatching(coll, query, fields, offset, moviesPerPage);
  }

  /** A movie the loader stores from a row is wanted by a director or actor
      filter naming any of the row's directors or cast members: the names
      reach the credit paths the corrected query filters on. */
  lemma LoadedMovieWantedByName(row: Ingest.Row, poster: string, director: string, actor: string)
    requires director in Ingest.SplitOn(row.director, Ingest.Separator)
    requires actor in Ingest.SplitOn(row.cast, Ingest.Separator)
    ensures WantedBy(Ingest.MovieOf(row, poster), None, Some(One(director)), Some(Many([actor])))
  {
    var m := Ingest.MovieOf(row, poster);
    assert CreditNames(m.directors) == Ingest.SplitOn(row.director, Ingest.Separator);
    assert CreditNames(m.actors) == Ingest.SplitOn(row.cast, Ingest.Separator);
    assert director in AsList(One(director));
    assert actor in AsList(Many([actor]));
  }

  /** Without any filter the query is empty and every movie is wanted. */
  lemma NoFilterWantsAll(m: Movie)
    ensures WantedBy(m, None, None, None)
    ensures WantedBy(m, Some(""), Some(Many([])), Some(One("")))
  {
  }

  // ---------------------------------------------------------------------
  // get_movies_by_genres and get_movies_by_release_year

  /** The filter document of `get_movies_by_genres`: `$all` for a list, an
      equality for a single genre. */
  function GenresQuery(genres: Names): Query {
    map["genres" := if genres.Many? then All(genres.names) else Equals(genres.name)]
  }

  /** A list selects the movies having every listed genre (an empty list
      selects none); a single genre selects the movies having it. */
  lemma GenresQuerySelects(m: Movie, genres: Names)
    ensures genres.Many? ==>
      (Matches(m, GenresQuery(genres)) <==> genres.names != [] && forall g :: g in genres.names ==> g in m.genres)
    ensures genres.One? ==> (Matches(m, GenresQuery(genres)) <==> genres.name in m.genres)
  {
    assert "genres" in GenresQuery(genres);
  }

  function GetMoviesByGenres(coll: seq<Movie>, offset: int, moviesPerPage: int, genres: Names,
                             projection: Option<Projection>): Result<Page, string>
  {
    PaginateQuery(coll, GenresQuery(genres), EffectiveProjection(projection), offset, moviesPerPage)
  }

  function GetMoviesByReleaseYear(coll: seq<Movie>, offset: int, moviesPerPage: int, releaseYear: int,
                                  projection: Option<Projection>): Result<Page, string>
  {
    PaginateQuery(coll, map["release_year" := EqualsInt(releaseYear)], EffectiveProjection(projection),
                  offset, moviesPerPage)
  }

  /** Both return pages of exactly the movies with the genres or the year. */
  lemma ByGenresAndYearPages(coll: seq<Movie>, offset: nat, moviesPerPage: int, genres: Names, year: int)
    ensures var g := GetMoviesByGenres(coll, offset, moviesPerPage, genres, None);
      && g.Ok? && forall m :: m in g.value.movies ==> m in coll && Matches(m, GenresQuery(genres))
    ensures var y := GetMoviesByReleaseYear(coll, offset, moviesPerPage, year, None);
      && y.Ok? && forall m :: m in y.value.movies ==> m in coll && m.releaseYear == Some(year)
  {
    GenresPage(coll, offset, moviesPerPage, genres);
    ReleaseYearPage(coll, offset, moviesPerPage, year);
  }

  lemma GenresPage(coll: seq<Movie>, offset: nat, moviesPerPage: int, genres: Names)
    ensures var g := GetMoviesByGenres(coll, offset, moviesPerPage, genres, None);
      && g.Ok? && forall m :: m in g.value.movies ==> m in coll && Matches(m, GenresQuery(genres))
  {
    WindowIsSlice(Find(coll, GenresQuery(genres)), offset, moviesPerPage);
    forall m | m in Window(Find(coll, GenresQuery(genres)), offset, moviesPerPage)
      ensures m in coll && Matches(m, GenresQuery(genres))
    {
      assert m in Find(coll, GenresQuery(genres));
    }
  }

  lemma ReleaseYearPage(coll: seq<Movie>, offset: nat, moviesPerPage: int, year: int)
    ensures var y := GetMoviesByReleaseYear(coll, offset, moviesPerPage, year, None);
      && y.Ok? && forall m :: m in y.value.movies ==> m in coll && m.releaseYear == Some(year)
  {
    var q := map["release_year" := EqualsInt(year)];
    WindowIsSlice(Find(coll, q), offset, moviesPerPage);
    forall m | m in Window(Find(coll, q), offset, moviesPerPage)
      ensures m in coll && m.releaseYear == Some(year)
    {
      assert m in Find(coll, q);
      assert FieldMatches(m, "release_year", q["release_year"]);
    }
  }
}
