/**
 * The loader that turns the cleaned CSV rows into movie documents and
 * troupe documents: one movie per row, one troupe record per distinct
 * person across every cast and director field, and the release-year window
 * applied before it. Poster lookups are foreign calls; their results are a
 * parameter, one per row.
 */
module Ingest {
  import opened Wrappers
  import SeedData

  /** The row fields the loader reads. The release year is the parsed
      number, None when the date did not parse (pandas' NaN). */
  datatype Row = Row(title: string, voteCount: int, releaseYear: Option<int>, overview: string,
                     genres: string, productionCompanies: string, productionCountries: string,
                     spokenLanguages: string, cast: string, director: string)

  /** `{"full_name": ...}` in a movie's `actors` and `directors`. */
  datatype Credit = Credit(fullName: string)

  /** A movie document as the loader emits it. */
  datatype Movie = Movie(title: string, voteCount: int, releaseYear: Option<int>, overview: string,
                         poster: string, genres: seq<string>, productionCompanies: seq<string>,
                         productionCountries: seq<string>, spokenLanguages: seq<string>,
                         actors: seq<Credit>, directors: seq<Credit>,
                         reviews: seq<SeedData.Review>, watchedCount: nat, addedCount: nat)

  datatype Kind = Actor | Director

  /** The movie summary a troupe record lists. */
  datatype TroupeMovie = TroupeMovie(title: string, poster: string, releaseYear: Option<int>)

  /** A troupe document. */
  datatype Member = Member(fullName: string, kind: Kind, movies: seq<TroupeMovie>, picture: string)

  /** The placeholder picture every troupe record gets. */
  const Picture := "https://media-cldnry.s-nbcnews.com/image/upload/t_fit-760w,f_auto,q_auto:best/rockcms/2023-09/kevin-james-king-of-queens-zz-230927-368fe6.jpg"

  /** The list separator of the CSV's multi-valued columns. */
  const Separator := ", "

  // ---------------------------------------------------------------------
  // str.split

  /** Python's `s.split(sep)` for a non-empty separator: cut at every
      occurrence, scanning from the left; the empty string gives `[""]`. */
  function SplitOn(s: string, sep: string): (r: seq<string>)
    requires |sep| > 0
    ensures |r| > 0
    decreases |s|
  {
    if |s| < |sep| then [s]
    else if s[..|sep|] == sep then [""] + SplitOn(s[|sep|..], sep)
    else
      var rest := SplitOn(s[1..], sep);
      [[s[0]] + rest[0]] + rest[1..]
  }

  /** `sep.join(parts)`. */
  function JoinWith(parts: seq<string>, sep: string): string
    requires |parts| > 0
    decreases |parts|
  {
    if |parts| == 1 then parts[0] else parts[0] + sep + JoinWith(parts[1..], sep)
  }

  /** Joining the pieces back gives the original text. */
  lemma {:induction false} SplitThenJoin(s: string, sep: string)
    requires |sep| > 0
    ensures JoinWith(SplitOn(s, sep), sep) == s
    decreases |s|
  {
    if |s| < |sep| {
    } else if s[..|sep|] == sep {
      var rest := SplitOn(s[|sep|..], sep);
      SplitThenJoin(s[|sep|..], sep);
      assert ([""] + rest)[1..] == rest;
      assert s == "" + sep + s[|sep|..];
    } else {
      var rest := SplitOn(s[1..], sep);
      SplitThenJoin(s[1..], sep);
      var r := [[s[0]] + rest[0]] + rest[1..];
      if |rest| == 1 {
        assert s == [s[0]] + s[1..];
      } else {
        assert r[1..] == rest[1..];
        assert JoinWith(rest, sep) == rest[0] + sep + JoinWith(rest[1..], sep);
        assert s == [s[0]] + s[1..];
      }
    }
  }

  /** Text without the separator's first character stays one piece. */
  lemma {:induction false} SplitWithoutSeparator(s: string, sep: string)
    requires |sep| > 0 && sep[0] !in s
    ensures SplitOn(s, sep) == [s]
    decreases |s|
  {
    if |s| >= |sep| {
      assert s[..|sep|][0] != sep[0];
      assert sep[0] !in s[1..];
      SplitWithoutSeparator(s[1..], sep);
      assert [s[0]] + s[1..] == s;
    }
  }

  // ---------------------------------------------------------------------
  // Movies

  /** The credits of a cast or director field, one per name, in order. */
  function Credits(names: seq<string>): (r: seq<Credit>)
    ensures |r| == |names|
    ensures forall k :: 0 <= k < |names| ==> r[k].fullName == names[k]
  {
    seq(|names|, k requires 0 <= k < |names| => Credit(names[k]))
  }

  /** The movie document of one row. */
  function MovieOf(row: Row, poster: string): Movie {
    Movie(row.title, row.voteCount, row.releaseYear, row.overview, poster,
          SplitOn(row.genres, Separator), SplitOn(row.productionCompanies, Separator),
          SplitOn(row.productionCountries, Separator), SplitOn(row.spokenLanguages, Separator),
          Credits(SplitOn(row.cast, Separator)), Credits(SplitOn(row.director, Separator)),
          [], 0, 0)
  }

  /** Every movie starts with no reviews and zero counters; its list fields
      join back to the row's text, and its credits are the split names. */
  lemma MovieOfFields(row: Row, poster: string)
    ensures var m := MovieOf(row, poster);
      && m.reviews == [] && m.watchedCount == 0 && m.addedCount == 0
      && m.voteCount == row.voteCount
      && m.title == row.title && m.poster == poster && m.releaseYear == row.releaseYear
      && JoinWith(m.genres, Separator) == row.genres
      && JoinWith(m.productionCompanies, Separator) == row.productionCompanies
      && JoinWith(m.productionCountries, Separator) == row.productionCountries
      && JoinWith(m.spokenLanguages, Separator) == row.spokenLanguages
      && |m.actors| == |SplitOn(row.cast, Separator)| && |m.directors| == |SplitOn(row.director, Separator)|
  {
    SplitThenJoin(row.genres, Separator);
    SplitThenJoin(row.productionCompanies, Separator);
    SplitThenJoin(row.productionCountries, Separator);
    SplitThenJoin(row.spokenLanguages, Separator);
  }

  /** The loaded movies are the documents the seeders update in place
      (`generate_user(movies=movies)`, `generate_reviews(movies=movies, …)`):
      each starts with the fields the loader gave it. */
  method Document(movie: Movie) returns (doc: SeedData.MovieDoc)
    ensures fresh(doc)
    ensures doc.title == movie.title && doc.poster == movie.poster && doc.voteCount == movie.voteCount
    ensures doc.reviews == movie.reviews && doc.watchedCount == movie.watchedCount && doc.addedCount == movie.addedCount
  {
    doc := new SeedData.MovieDoc(movie.title, movie.poster, movie.voteCount, movie.reviews,
                                 movie.watchedCount, movie.addedCount);
  }

  /** One document per loaded movie, in order, each a new object. */
  method Documents(movies: seq<Movie>) returns (docs: seq<SeedData.MovieDoc>)
    ensures |docs| == |movies|
    ensures forall k :: 0 <= k < |movies| ==> fresh(docs[k])
    ensures forall k :: 0 <= k < |movies| ==>
      && docs[k].title == movies[k].title && docs[k].poster == movies[k].poster
      && docs[k].voteCount == movies[k].voteCount && docs[k].reviews == movies[k].reviews
      && docs[k].watchedCount == movies[k].watchedCount && docs[k].addedCount == movies[k].addedCount
    ensures forall j, k :: 0 <= j < k < |docs| ==> docs[j] != docs[k]
  {
    docs := [];
    var i := 0;
    while i < |movies|
      invariant 0 <= i <= |movies| && |docs| == i
      invariant forall k :: 0 <= k < i ==> fresh(docs[k])
      invariant forall k :: 0 <= k < i ==>
        && docs[k].title == movies[k].title && docs[k].poster == movies[k].poster
        && docs[k].voteCount == movies[k].voteCount && docs[k].reviews == movies[k].reviews
        && docs[k].watchedCount == movies[k].watchedCount && docs[k].addedCount == movies[k].addedCount
      invariant forall j, k :: 0 <= j < k < i ==> docs[j] != docs[k]
    {
      var doc := Document(movies[i]);
      docs := docs + [doc];
      i := i + 1;
    }
  }

  // ---------------------------------------------------------------------
  // The troupe dictionary

  /** One mention of a person: their name, the column it was in, and the
      movie it was in. */
  datatype Occurrence = Occurrence(name: string, kind: Kind, movie: TroupeMovie)

  /** The mentions of one column of one movie. */
  function ColumnOccurrences(names: seq<string>, kind: Kind, movie: TroupeMovie): (r: seq<Occurrence>)
    ensures |r| == |names|
    ensures forall k :: 0 <= k < |names| ==> r[k] == Occurrence(names[k], kind, movie)
  {
    seq(|names|, k requires 0 <= k < |names| => Occurrence(names[k], kind, movie))
  }

  /** Every mention in the rows, row by row, the cast before the director. */
  function Occurrences(rows: seq<Row>, posters: seq<string>): seq<Occurrence>
    requires |posters| == |rows|
  {
    if rows == [] then []
    else
      var n := |rows| - 1;
      var movie := TroupeMovie(rows[n].title, posters[n], rows[n].releaseYear);
      Occurrences(rows[..n], posters[..n])
        + ColumnOccurrences(SplitOn(rows[n].cast, Separator), Actor, movie)
        + ColumnOccurrences(SplitOn(rows[n].director, Separator), Director, movie)
  }

  /** A person's entry in the dictionary. */
  datatype Entry = Entry(kind: Kind, movies: seq<TroupeMovie>)

  /** The dictionary with its insertion order. */
  datatype Troupe = Troupe(order: seq<string>, entries: map<string, Entry>)

  const NoTroupe := Troupe([], map[])

  /** One mention: a new person gets an entry typed by this mention; a
      known person's movie list grows. */
  function Record(t: Troupe, o: Occurrence): Troupe {
    if o.name !in t.entries then Troupe(t.order + [o.name], t.entries[o.name := Entry(o.kind, [o.movie])])
    else Troupe(t.order, t.entries[o.name := Entry(t.entries[o.name].kind, t.entries[o.name].movies + [o.movie])])
  }

  function RecordAll(t: Troupe, occs: seq<Occurrence>): Troupe {
    if occs == [] then t else Record(RecordAll(t, occs[..|occs| - 1]), occs[|occs| - 1])
  }

  lemma RecordAllSnoc(t: Troupe, occs: seq<Occurrence>, o: Occurrence)
    ensures RecordAll(t, occs + [o]) == Record(RecordAll(t, occs), o)
  {
    assert (occs + [o])[..|occs|] == occs;
  }

  lemma {:induction false} RecordAllAppend(t: Troupe, a: seq<Occurrence>, b: seq<Occurrence>)
    ensures RecordAll(t, a + b) == RecordAll(RecordAll(t, a), b)
    decreases |b|
  {
    if b == [] {
      assert a + b == a;
    } else {
      var b' := b[..|b| - 1];
      RecordAllAppend(t, a, b');
      assert (a + b)[..|a + b| - 1] == a + b';
    }
  }

  /** The reference definitions the dictionary is checked against. */

  /** Whether `name` is mentioned. */
  predicate Mentions(occs: seq<Occurrence>, name: string) {
    exists k :: 0 <= k < |occs| && occs[k].name == name
  }

  /** The position of a person's first mention. */
  function FirstIndex(occs: seq<Occurrence>, name: string): (k: nat)
    requires Mentions(occs, name)
    ensures k < |occs| && occs[k].name == name
    ensures forall j :: 0 <= j < k ==> occs[j].name != name
  {
    if occs[0].name == name then 0
    else
      assert Mentions(occs[1..], name) by {
        var k :| 0 <= k < |occs| && occs[k].name == name;
        assert occs[1..][k - 1].name == name;
      }
      1 + FirstIndex(occs[1..], name)
  }

  /** The movies of every mention of `name`, in order. */
  function MoviesOf(occs: seq<Occurrence>, name: string): seq<TroupeMovie> {
    if occs == [] then []
    else
      var o := occs[|occs| - 1];
      MoviesOf(occs[..|occs| - 1], name) + (if o.name == name then [o.movie] else [])
  }

  lemma FirstIndexOfPrefix(occs: seq<Occurrence>, n: nat, name: string)
    requires n <= |occs| && Mentions(occs[..n], name)
    ensures Mentions(occs, name)
    ensures FirstIndex(occs, name) == FirstIndex(occs[..n], name)
  {
    var k := FirstIndex(occs[..n], name);
    assert occs[k] == occs[..n][k];
    assert forall j :: 0 <= j < k ==> occs[j] == occs[..n][j];
  }

  lemma FirstIndexOfLast(occs: seq<Occurrence>, name: string)
    requires |occs| > 0 && occs[|occs| - 1].name == name && !Mentions(occs[..|occs| - 1], name)
    ensures Mentions(occs, name)
    ensures FirstIndex(occs, name) == |occs| - 1
  {
    var n := |occs| - 1;
    assert forall j :: 0 <= j < n ==> occs[j] == occs[..n][j];
  }

  lemma {:induction false} MoviesOfUnmentioned(occs: seq<Occurrence>, name: string)
    requires !Mentions(occs, name)
    ensures MoviesOf(occs, name) == []
    decreases |occs|
  {
    if occs != [] {
      var n := |occs| - 1;
      assert !Mentions(occs[..n], name) by {
        forall k | 0 <= k < n
          ensures occs[..n][k].name != name
        {
          assert occs[..n][k] == occs[k];
        }
      }
      MoviesOfUnmentioned(occs[..n], name);
      assert occs[n].name != name;
    }
  }

  /** The dictionary's keys: exactly the mentioned people, each once in
      the insertion order. */
  ghost predicate Keyed(t: Troupe, occs: seq<Occurrence>) {
    && (forall i, j :: 0 <= i < j < |t.order| ==> t.order[i] != t.order[j])
    && (forall name :: name in t.entries <==> name in t.order)
    && (forall name :: name in t.entries <==> Mentions(occs, name))
  }

  /** Each entry is typed by the person's first mention and lists one movie
      per mention. */
  ghost predicate Filled(t: Troupe, occs: seq<Occurrence>)
    requires Keyed(t, occs)
  {
    forall name :: name in t.entries ==>
      && t.entries[name].kind == occs[FirstIndex(occs, name)].kind
      && t.entries[name].movies == MoviesOf(occs, name)
  }

  /** The insertion order is the order of first mentions. */
  ghost predicate Ordered(t: Troupe, occs: seq<Occurrence>)
    requires Keyed(t, occs)
  {
    forall i, j :: 0 <= i < j < |t.order| ==>
      FirstIndex(occs, t.order[i]) < FirstIndex(occs, t.order[j])
  }

  ghost predicate Summarizes(t: Troupe, occs: seq<Occurrence>) {
    Keyed(t, occs) && Filled(t, occs) && Ordered(t, occs)
  }

  /** How the reference definitions extend by one mention. */
  lemma MentionsSnoc(prefix: seq<Occurrence>, o: Occurrence)
    ensures forall name :: Mentions(prefix + [o], name) <==> Mentions(prefix, name) || name == o.name
    ensures forall name :: Mentions(prefix, name) ==> FirstIndex(prefix + [o], name) == FirstIndex(prefix, name)
    ensures !Mentions(prefix, o.name) ==> FirstIndex(prefix + [o], o.name) == |prefix|
    ensures forall name :: MoviesOf(prefix + [o], name) == MoviesOf(prefix, name) + (if o.name == name then [o.movie] else [])
  {
    var occs := prefix + [o];
    var n := |prefix|;
    assert occs[..n] == prefix;
    forall name | Mentions(prefix, name)
      ensures Mentions(occs, name) && FirstIndex(occs, name) == FirstIndex(prefix, name)
    {
      FirstIndexOfPrefix(occs, n, name);
    }
    forall name | Mentions(occs, name) && name != o.name
      ensures Mentions(prefix, name)
    {
      var k :| 0 <= k < |occs| && occs[k].name == name;
      assert prefix[k].name == name;
    }
    assert occs[n] == o;
    if !Mentions(prefix, o.name) {
      FirstIndexOfLast(occs, o.name);
    }
  }

  lemma RecordKeyed(t: Troupe, prefix: seq<Occurrence>, o: Occurrence)
    requires Keyed(t, prefix)
    ensures Keyed(Record(t, o), prefix + [o])
  {
    MentionsSnoc(prefix, o);
  }

  lemma RecordFilled(t: Troupe, prefix: seq<Occurrence>, o: Occurrence)
    requires Keyed(t, prefix) && Filled(t, prefix)
    ensures Keyed(Record(t, o), prefix + [o]) && Filled(Record(t, o), prefix + [o])
  {
    var t' := Record(t, o);
    RecordKeyed(t, prefix, o);
    forall name | name in t'.entries
      ensures Mentions(prefix + [o], name)
      ensures t'.entries[name].kind == (prefix + [o])[FirstIndex(prefix + [o], name)].kind
      ensures t'.entries[name].movies == MoviesOf(prefix + [o], name)
    {
      RecordFilledAt(t, prefix, o, name);
    }
  }

  /** One person's entry after one more mention. */
  lemma RecordFilledAt(t: Troupe, prefix: seq<Occurrence>, o: Occurrence, name: string)
    requires Keyed(t, prefix) && Filled(t, prefix)
    requires name in Record(t, o).entries
    ensures Mentions(prefix + [o], name)
    ensures Record(t, o).entries[name].kind == (prefix + [o])[FirstIndex(prefix + [o], name)].kind
    ensures Record(t, o).entries[name].movies == MoviesOf(prefix + [o], name)
  {
    var occs := prefix + [o];
    MentionsSnoc(prefix, o);
    if name == o.name && o.name !in t.entries {
      MoviesOfUnmentioned(prefix, o.name);
      assert MoviesOf(occs, name) == [] + [o.movie];
    } else if name == o.name {
      assert occs[FirstIndex(prefix, name)] == prefix[FirstIndex(prefix, name)];
    } else {
      assert occs[FirstIndex(prefix, name)] == prefix[FirstIndex(prefix, name)];
      assert MoviesOf(occs, name) == MoviesOf(prefix, name) + [];
    }
  }

  lemma RecordOrdered(t: Troupe, prefix: seq<Occurrence>, o: Occurrence)
    requires Keyed(t, prefix) && Ordered(t, prefix)
    ensures Keyed(Record(t, o), prefix + [o]) && Ordered(Record(t, o), prefix + [o])
  {
    var t' := Record(t, o);
    RecordKeyed(t, prefix, o);
    forall i, j | 0 <= i < j < |t'.order|
      ensures Mentions(prefix + [o], t'.order[i]) && Mentions(prefix + [o], t'.order[j])
      ensures FirstIndex(prefix + [o], t'.order[i]) < FirstIndex(prefix + [o], t'.order[j])
    {
      RecordOrderedAt(t, prefix, o, i, j);
    }
  }

  /** One pair of keys keeps its order after one more mention. */
  lemma RecordOrderedAt(t: Troupe, prefix: seq<Occurrence>, o: Occurrence, i: nat, j: nat)
    requires Keyed(t, prefix) && Ordered(t, prefix)
    requires i < j < |Record(t, o).order|
    ensures Mentions(prefix + [o], Record(t, o).order[i]) && Mentions(prefix + [o], Record(t, o).order[j])
    ensures FirstIndex(prefix + [o], Record(t, o).order[i]) < FirstIndex(prefix + [o], Record(t, o).order[j])
  {
    var t' := Record(t, o);
    RecordKeyed(t, prefix, o);
    MentionsSnoc(prefix, o);
    assert t'.order[i] == t.order[i] && t.order[i] in t.entries;
    if j == |t.order| {
      assert t'.order[j] == o.name && o.name !in t.entries;
    } else {
      assert t'.order[j] == t.order[j] && t.order[j] in t.entries;
    }
  }

  lemma {:induction false} RecordAllSummarizes(occs: seq<Occurrence>)
    ensures Summarizes(RecordAll(NoTroupe, occs), occs)
    decreases |occs|
  {
    if occs != [] {
      var n := |occs| - 1;
      var prefix := occs[..n];
      RecordAllSummarizes(prefix);
      assert occs == prefix + [occs[n]];
      RecordFilled(RecordAll(NoTroupe, prefix), prefix, occs[n]);
      RecordOrdered(RecordAll(NoTroupe, prefix), prefix, occs[n]);
    }
  }

  /** `troupe_data`: the dictionary's items in insertion order. */
  function TroupeData(t: Troupe): (r: seq<Member>)
    ensures |r| == |t.order|
  {
    seq(|t.order|, i requires 0 <= i < |t.order| =>
      var name := t.order[i];
      if name in t.entries then Member(name, t.entries[name].kind, t.entries[name].movies, Picture)
      else Member(name, Actor, [], Picture))
  }

  /** Some record of the troupe data carries this name. */
  predicate Listed(d: seq<Member>, name: string) {
    exists i :: 0 <= i < |d| && d[i].fullName == name
  }

  /** The troupe data of a dictionary that summarizes some mentions. */
  lemma TroupeDataOfSummary(t: Troupe, occs: seq<Occurrence>)
    requires Summarizes(t, occs)
    ensures var d := TroupeData(t);
      && (forall i :: 0 <= i < |d| ==> d[i].fullName == t.order[i] && t.order[i] in t.entries)
      && (forall i, j :: 0 <= i < j < |d| ==> d[i].fullName != d[j].fullName)
      && (forall name :: Mentions(occs, name) <==> Listed(d, name))
  {
    var d := TroupeData(t);
    forall name | Mentions(occs, name)
      ensures Listed(d, name)
    {
      var i :| 0 <= i < |t.order| && t.order[i] == name;
      assert d[i].fullName == name;
    }
  }

  /** Each record of that troupe data is typed and filled as the mentions say. */
  lemma TroupeDataRecords(t: Troupe, occs: seq<Occurrence>)
    requires Summarizes(t, occs)
    ensures var d := TroupeData(t);
      && (forall i :: 0 <= i < |d| ==>
            && Mentions(occs, d[i].fullName)
            && d[i].kind == occs[FirstIndex(occs, d[i].fullName)].kind
            && d[i].movies == MoviesOf(occs, d[i].fullName)
            && d[i].picture == Picture)
      && (forall i, j :: 0 <= i < j < |d| ==>
            FirstIndex(occs, d[i].fullName) < FirstIndex(occs, d[j].fullName))
  {
    var d := TroupeData(t);
    assert forall i :: 0 <= i < |d| ==> d[i].fullName == t.order[i] && t.order[i] in t.entries;
  }

  /** The troupe documents: one per distinct person, in order of first
      mention, typed by the first mention, with a movie per mention (two
      for a person who both acts in and directs a movie). */
  lemma TroupeDataOfRows(rows: seq<Row>, posters: seq<string>)
    requires |posters| == |rows|
    ensures var occs := Occurrences(rows, posters);
            var d := TroupeData(RecordAll(NoTroupe, occs));
      && (forall i, j :: 0 <= i < j < |d| ==> d[i].fullName != d[j].fullName)
      && (forall name :: Mentions(occs, name) <==> Listed(d, name))
      && (forall i :: 0 <= i < |d| ==>
            && Mentions(occs, d[i].fullName)
            && d[i].kind == occs[FirstIndex(occs, d[i].fullName)].kind
            && d[i].movies == MoviesOf(occs, d[i].fullName)
            && d[i].picture == Picture)
      && (forall i, j :: 0 <= i < j < |d| ==>
            FirstIndex(occs, d[i].fullName) < FirstIndex(occs, d[j].fullName))
  {
    var occs := Occurrences(rows, posters);
    RecordAllSummarizes(occs);
    TroupeDataOfSummary(RecordAll(NoTroupe, occs), occs);
    TroupeDataRecords(RecordAll(NoTroupe, occs), occs);
  }

  /** A person named in both the cast and the director field of one movie
      lists that movie twice and is typed by the cast. */
  lemma ActorDirectorListedTwice(name: string, title: string, poster: string, year: Option<int>)
    requires forall i :: 0 <= i < |name| ==> name[i] != ','
    ensures var row := Row(title, 0, year, "", "", "", "", "", name, name);
            var occs := Occurrences([row], [poster]);
            var t := RecordAll(NoTroupe, occs);
      && t.order == [name]
      && name in t.entries
      && t.entries[name] == Entry(Actor, [TroupeMovie(title, poster, year), TroupeMovie(title, poster, year)])
  {
    var row := Row(title, 0, year, "", "", "", "", "", name, name);
    var movie := TroupeMovie(title, poster, year);
    SameNameRow(row, name, poster);
    RecordTwice(name, movie);
  }

  lemma SameNameRow(row: Row, name: string, poster: string)
    requires forall i :: 0 <= i < |name| ==> name[i] != ','
    requires row.cast == name && row.director == name
    ensures var movie := TroupeMovie(row.title, poster, row.releaseYear);
      Occurrences([row], [poster]) == [Occurrence(name, Actor, movie), Occurrence(name, Director, movie)]
  {
    assert Separator[0] == ',';
    SplitWithoutSeparator(name, Separator);
    var movie := TroupeMovie(row.title, poster, row.releaseYear);
    OneRowOccurrences(row, poster);
    assert ColumnOccurrences([name], Actor, movie) == [Occurrence(name, Actor, movie)];
    assert ColumnOccurrences([name], Director, movie) == [Occurrence(name, Director, movie)];
  }

  lemma RecordTwice(name: string, movie: TroupeMovie)
    ensures RecordAll(NoTroupe, [Occurrence(name, Actor, movie), Occurrence(name, Director, movie)])
            == Troupe([name], map[name := Entry(Actor, [movie, movie])])
  {
    var actor := Occurrence(name, Actor, movie);
    var director := Occurrence(name, Director, movie);
    assert [] + [actor] == [actor] && [actor] + [director] == [actor, director];
    RecordAllSnoc(NoTroupe, [], actor);
    RecordAllSnoc(NoTroupe, [actor], director);
    var once := Record(NoTroupe, actor);
    assert once == Troupe([name], map[name := Entry(Actor, [movie])]);
    assert [movie] + [movie] == [movie, movie];
    assert once.entries[name := Entry(Actor, [movie, movie])] == map[name := Entry(Actor, [movie, movie])];
  }

  /** The mentions of a single row: its cast, then its directors. */
  lemma OneRowOccurrences(row: Row, poster: string)
    ensures var movie := TroupeMovie(row.title, poster, row.releaseYear);
      Occurrences([row], [poster])
      == ColumnOccurrences(SplitOn(row.cast, Separator), Actor, movie)
         + ColumnOccurrences(SplitOn(row.director, Separator), Director, movie)
  {
    assert [row][..0] == [] && [poster][..0] == [];
  }

  // ---------------------------------------------------------------------
  // get_movies_and_troupe

  /** One column of one row: its credits, and the dictionary after its
      mentions. */
  method RecordColumn(troupe: Troupe, column: string, kind: Kind, troupeMovie: TroupeMovie)
    returns (members: seq<Credit>, troupe': Troupe)
    ensures members == Credits(SplitOn(column, Separator))
    ensures troupe' == RecordAll(troupe, ColumnOccurrences(SplitOn(column, Separator), kind, troupeMovie))
  {
    var names := SplitOn(column, Separator);
    members := [];
    troupe' := troupe;
    var j := 0;
    while j < |names|
      invariant 0 <= j <= |names|
      invariant members == Credits(names[..j])
      invariant troupe' == RecordAll(troupe, ColumnOccurrences(names[..j], kind, troupeMovie))
    {
      var member := names[j];
      members := members + [Credit(member)];
      RecordAllSnoc(troupe, ColumnOccurrences(names[..j], kind, troupeMovie), Occurrence(member, kind, troupeMovie));
      assert ColumnOccurrences(names[..j + 1], kind, troupeMovie) ==
             ColumnOccurrences(names[..j], kind, troupeMovie) + [Occurrence(member, kind, troupeMovie)];
      troupe' := Record(troupe', Occurrence(member, kind, troupeMovie));
      j := j + 1;
    }
    assert names[..j] == names;
  }

  /** One more row records its cast, then its director field. */
  lemma RecordRowStep(rows: seq<Row>, posters: seq<string>, i: nat)
    requires |posters| == |rows| && i < |rows|
    ensures var movie := TroupeMovie(rows[i].title, posters[i], rows[i].releaseYear);
      RecordAll(RecordAll(RecordAll(NoTroupe, Occurrences(rows[..i], posters[..i])),
                          ColumnOccurrences(SplitOn(rows[i].cast, Separator), Actor, movie)),
                ColumnOccurrences(SplitOn(rows[i].director, Separator), Director, movie))
      == RecordAll(NoTroupe, Occurrences(rows[..i + 1], posters[..i + 1]))
  {
    var movie := TroupeMovie(rows[i].title, posters[i], rows[i].releaseYear);
    var before := Occurrences(rows[..i], posters[..i]);
    var castOccs := ColumnOccurrences(SplitOn(rows[i].cast, Separator), Actor, movie);
    var directorOccs := ColumnOccurrences(SplitOn(rows[i].director, Separator), Director, movie);
    assert rows[..i + 1][..i] == rows[..i] && posters[..i + 1][..i] == posters[..i];
    assert Occurrences(rows[..i + 1], posters[..i + 1]) == before + castOccs + directorOccs;
    RecordAllAppend(NoTroupe, before, castOccs);
    RecordAllAppend(NoTroupe, before + castOccs, directorOccs);
  }

  /** One row of the loop: its movie document, and the dictionary after its
      cast and then its director field are recorded. */
  method ReadRow(troupe: Troupe, movieRow: Row, poster: string) returns (movie: Movie, troupe': Troupe)
    ensures movie == MovieOf(movieRow, poster)
    ensures var troupeMovie := TroupeMovie(movieRow.title, poster, movieRow.releaseYear);
      troupe' == RecordAll(RecordAll(troupe, ColumnOccurrences(SplitOn(movieRow.cast, Separator), Actor, troupeMovie)),
                           ColumnOccurrences(SplitOn(movieRow.director, Separator), Director, troupeMovie))
  {
    var troupeMovie := TroupeMovie(movieRow.title, poster, movieRow.releaseYear);
    var actors, directors;
    actors, troupe' := RecordColumn(troupe, movieRow.cast, Actor, troupeMovie);
    directors, troupe' := RecordColumn(troupe', movieRow.director, Director, troupeMovie);
    movie := Movie(movieRow.title, movieRow.voteCount, movieRow.releaseYear, movieRow.overview, poster,
                   SplitOn(movieRow.genres, Separator), SplitOn(movieRow.productionCompanies, Separator),
                   SplitOn(movieRow.productionCountries, Separator), SplitOn(movieRow.spokenLanguages, Separator),
                   actors, directors, [], 0, 0);
  }

  /** `movies` holds the documents of the first rows, in order. */
  ghost predicate Loaded(movies: seq<Movie>, rows: seq<Row>, posters: seq<string>) {
    && |movies| <= |rows| && |posters| == |rows|
    && forall k :: 0 <= k < |movies| ==> movies[k] == MovieOf(rows[k], posters[k])
  }

  lemma LoadedSnoc(movies: seq<Movie>, rows: seq<Row>, posters: seq<string>, movie: Movie)
    requires Loaded(movies, rows, posters) && |movies| < |rows|
    requires movie == MovieOf(rows[|movies|], posters[|movies|])
    ensures Loaded(movies + [movie], rows, posters)
  {
  }

  /** `get_movies_and_troupe`: a movie per row, in row order, and the
      troupe documents of every mention. */
  method GetMoviesAndTroupe(rows: seq<Row>, posters: seq<string>)
    returns (movies: seq<Movie>, troupeData: seq<Member>)
    requires |posters| == |rows|
    ensures |movies| == |rows|
    ensures forall i :: 0 <= i < |rows| ==> movies[i] == MovieOf(rows[i], posters[i])
    ensures troupeData == TroupeData(RecordAll(NoTroupe, Occurrences(rows, posters)))
  {
    movies := [];
    var troupe := NoTroupe;
    var i := 0;
    while i < |rows|
      invariant 0 <= i <= |rows|
      invariant |movies| == i
      invariant Loaded(movies, rows, posters)
      invariant troupe == RecordAll(NoTroupe, Occurrences(rows[..i], posters[..i]))
    {
      RecordRowStep(rows, posters, i);
      var movie;
      movie, troupe := ReadRow(troupe, rows[i], posters[i]);
      LoadedSnoc(movies, rows, posters, movie);
      movies := movies + [movie];
      i := i + 1;
    }
    assert rows[..i] == rows && posters[..i] == posters;
    troupeData := TroupeData(troupe);
  }

  // ---------------------------------------------------------------------
  // pre_process_data

  /** The year window: NaN compares false, so an unparsed year is dropped. */
  predicate InWindow(year: Option<int>) {
    year.Some? && 1995 <= year.value <= 2025
  }

  /** The rows released from 1995 to 2025, in their order. */
  function YearWindow(rows: seq<Row>): (r: seq<Row>)
    ensures |r| <= |rows|
  {
    if rows == [] then []
    else (if InWindow(rows[0].releaseYear) then [rows[0]] else []) + YearWindow(rows[1..])
  }

  /** The window keeps exactly the rows inside it, and applying it again
      changes nothing. */
  lemma {:induction false} YearWindowSelects(rows: seq<Row>)
    ensures forall row :: row in YearWindow(rows) <==> row in rows && InWindow(row.releaseYear)
    ensures YearWindow(YearWindow(rows)) == YearWindow(rows)
    decreases |rows|
  {
    if rows != [] {
      YearWindowSelects(rows[1..]);
      assert rows == [rows[0]] + rows[1..];
      var rest := YearWindow(rows[1..]);
      if InWindow(rows[0].releaseYear) {
        assert ([rows[0]] + rest)[0] == rows[0];
        assert ([rows[0]] + rest)[1..] == rest;
        assert YearWindow([rows[0]] + rest) == [rows[0]] + YearWindow(rest);
      } else {
        assert YearWindow(rows) == [] + rest;
        assert [] + rest == rest;
      }
    }
  }
}
