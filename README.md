# MyMovieList in Dafny

MyMovieList is a movie watch-list application. An iOS client lets a user mark a movie as "to watch", "watched" or "favourite", browse their list and write reviews. A Flask backend stores users and movies in MongoDB. A loader script fills the database from a CSV of movies and seeds it with fake users and reviews.

This project models the logic in those programs that has definite behaviour, and proves properties of it:

- **`MovieScreen`** (`movie_view.dfy`). The movie screen's two buttons:
  - the list button cycles not-in-list → to-watch → watched;
  - the star button marks a favourite;
  - each gesture sends requests to the user view-model;
  - the screen derives its initial state from the user's three sub-lists;
  - the labels and the rating stars follow the state.

  The button states are the fields of the class `MovieViewState`. Its methods are proved against pure step functions. The lemmas show that the policy "a favourite movie is a watched movie" holds after every gesture. They also show that the consistent states are exactly the reachable ones, and that every change request agrees with what the screen shows.
- **`UserApi`** (`user_api.dfy`). The client's `UserViewModel`: its list of movies, its reviews, its two messages and its loading flag. Every operation has a start phase and a completion phase. The completion phase receives the transfer's outcome as an input (an error, no data, a decoded body or a decoding failure). The module also models the request paths and bodies that are sent.
- **`ListScreen`** (`my_movie_list_view.dfy`). The "My List" screen: which sub-list a grid shows, the page selection, the favourite filter, and the three fetches made on appearance.
- **`UserEndpoints`** (`user_endpoints.dfy`). The backend's `/api/user` handlers: how each one parses its flags, checks its parameters and chooses its response. The database's answers are inputs.
- **`Protocol`** (`protocol.dfy`). Client and server together:
  - the flags the client writes as text parse back to the same booleans;
  - the list URL's segments carry the user id and the flags to the route;
  - a review body always passes the server's vote check;
  - the lemmas show how the client reads each delete and review reply.
- **`MovieQueries`** (`db_queries.dfy`). The backend's database queries:
  - the filter document built from optional arguments;
  - the default projection;
  - the genre and year filters;
  - `skip`/`limit` pagination over the collection, with the total as written and, corrected, the number of matches.

  Matching follows MongoDB's rules for the operators involved.
- **`SeedData`** (`seed_data.dfy`). The fake-data generators. Sampled movies gain `added_count`/`watched_count`, and reviews are embedded in a movie's bounded list of five, as written and, corrected, keeping the five most recent. Movies are objects of the class `MovieDoc`, built from the loaded movies (`Ingest.Documents`), whose counters and reviews the generators update in place. Random and Faker values are inputs.
- **`Ingest`** (`ingest.dfy`). The loader. It turns CSV rows into movie documents and groups every cast and director name into one troupe record per person, in first-mention order. It also keeps only the rows released from 1995 to 2025.

After a star gesture the movie screen fetches only the favourites sub-list again (`MovieView.swift:223`), and after a list-button gesture it fetches nothing; the model follows this code rather than a re-fetch of all three sub-lists.

## Model

| member | source | states |
|---|---|---|
| MovieScreen.ToggleCycles | frontend/swift/MyMovieList/Views/MovieView.swift:15-38 | the list state's toggle has period exactly 3; the star's toggle is an involution |
| MovieScreen.CycleClearsStarUnlessWatched | frontend/swift/MyMovieList/Views/MovieView.swift:152-158 | the cycle gesture advances the list state and clears the star unless the new state is watched, where it keeps it |
| MovieScreen.CycleSendsOneRequest | frontend/swift/MyMovieList/Views/MovieView.swift:187-196 | a cycle gesture sends exactly one request: delete, add(false,false) or update(true,false), exactly as the new state is not-in-list, to-watch or watched |
| MovieScreen.ThreeCyclesReturn | frontend/swift/MyMovieList/Views/MovieView.swift:152-158 | three cycles from not-in-list return there with the star off, having sent add, update, delete in that order |
| MovieScreen.StarSendsOneChange | frontend/swift/MyMovieList/Views/MovieView.swift:199-224 | the star gesture flips the star and sends one change, an add (iff not in the list) or an update (iff in it), with watched=true and the new star, then one favourites fetch |
| MovieScreen.StarPromotesToWatched | frontend/swift/MyMovieList/Views/MovieView.swift:219-221 | turning the star on makes the movie watched; turning it off leaves the list state unchanged |
| MovieScreen.GesturesEstablishConsistent | frontend/swift/MyMovieList/Views/MovieView.swift:152-164 | after either gesture, from any state, a favourite movie is watched |
| MovieScreen.RunKeepsConsistent | frontend/swift/MyMovieList/Views/MovieView.swift:152-224 | any sequence of gestures from a consistent state stays consistent |
| MovieScreen.ConsistentIsReachable | frontend/swift/MyMovieList/Views/MovieView.swift:152-224 | every consistent state is reached by some gesture sequence from the initial state |
| MovieScreen.ChangeRequestMatchesScreen | frontend/swift/MyMovieList/Views/MovieView.swift:187-221 | from a consistent state, the (watched, favourite) a gesture's change request records is what the buttons then show, and a delete iff the movie leaves the list |
| MovieScreen.ChangeRequestMismatchOutsidePolicy | frontend/swift/MyMovieList/Views/MovieView.swift:199-221 | from the inconsistent state (not in list, favourite) un-starring records a watched movie while the screen shows it as not in the list |
| MovieScreen.InitialButtonsPrecedence | frontend/swift/MyMovieList/Views/MovieView.swift:167-184 | favourites win over watched, watched over to-watch; a movie in no sub-list keeps the current states |
| MovieScreen.InitialButtonsConsistent | frontend/swift/MyMovieList/Views/MovieView.swift:167-184 | the derived states are consistent when the movie is in some sub-list or the old states were consistent |
| MovieScreen.LabelsIdentifyState | frontend/swift/MyMovieList/Views/MovieView.swift:227-256 | the text, the icon and the colour each tell the three list states apart; the star's icon and colour tell its two states apart |
| MovieScreen.Stars | frontend/swift/MyMovieList/Views/MovieView.swift:512-528 | one entry per star of the scale |
| MovieScreen.StarsFillPrefix | frontend/swift/MyMovieList/Views/MovieView.swift:520-525 | star k is filled iff k ≤ vote: the filled stars are exactly the first min(max(vote,0), maximum) |
| MovieScreen.MovieViewState.constructor | frontend/swift/MyMovieList/Views/MovieView.swift:45-51 | a new screen shows not-in-list and no star |
| MovieScreen.MovieViewState.UpdateUserListInViewModel | frontend/swift/MyMovieList/Views/MovieView.swift:187-196 | the request is chosen by the list state: delete, add(false,false), update(true,false) |
| MovieScreen.MovieViewState.ToggleUserListState | frontend/swift/MyMovieList/Views/MovieView.swift:152-158 | the new fields and the requests sent are those of the cycle step from the old fields |
| MovieScreen.MovieViewState.UpdateFavoriteInViewModel | frontend/swift/MyMovieList/Views/MovieView.swift:199-224 | add when not in the list, update otherwise, with watched=true and the star; a favourite becomes watched; then a favourites fetch |
| MovieScreen.MovieViewState.ToggleFavoriteState | frontend/swift/MyMovieList/Views/MovieView.swift:161-164 | the new fields and the requests sent are those of the star step from the old fields |
| MovieScreen.MovieViewState.UpdateButtonStates | frontend/swift/MyMovieList/Views/MovieView.swift:167-184 | the fields become the precedence-derived states of the three sub-lists |
| UserApi.DigitsReadBack | frontend/swift/MyMovieList/API/UserAPI.swift:269 | the digits written for a number are digits only, have no leading zero and read back as the number |
| UserApi.DecimalReadsBack | frontend/swift/MyMovieList/API/UserAPI.swift:269 | a vote's decimal text is never empty and reads back as the vote (with a minus sign for a negative one) |
| UserApi.Split | frontend/swift/MyMovieList/API/UserAPI.swift:187 | splitting text on a character yields at least one segment |
| UserApi.SplitJoin | frontend/swift/MyMovieList/API/UserAPI.swift:187 | splitting on '/' undoes joining segments free of '/' |
| UserApi.DeletePathSegments | frontend/swift/MyMovieList/API/UserAPI.swift:187 | the delete URL's segments end with the user id and the movie id |
| UserApi.ListPathSegments | frontend/swift/MyMovieList/API/UserAPI.swift:234 | the list URL's segments end with the user id and the flags' text |
| UserApi.RemoveAllRemovesExactly | frontend/swift/MyMovieList/API/UserAPI.swift:221 | `removeAll` keeps exactly the entries without the id, as a sub-multiset, losing one entry per occurrence |
| UserApi.RemoveAllAppend | frontend/swift/MyMovieList/API/UserAPI.swift:221 | removal distributes over concatenation, so the survivors keep their order |
| UserApi.RemoveAllIdempotent | frontend/swift/MyMovieList/API/UserAPI.swift:221 | removing twice equals removing once; a list without the id is unchanged |
| UserApi.Occurrences | frontend/swift/MyMovieList/API/UserAPI.swift:221 | the count of entries with the id is at most the list's length |
| UserApi.StartResetsFlags | frontend/swift/MyMovieList/API/UserAPI.swift:89-91 | starting an operation raises `isLoading`, clears both messages and keeps the lists |
| UserApi.AddAppendsEntry | frontend/swift/MyMovieList/API/UserAPI.swift:107-118 | a decoded add reply without error appends exactly the entry, keeps the earlier ones and lowers `isLoading` |
| UserApi.AddUpdateFailureKeepsList | frontend/swift/MyMovieList/API/UserAPI.swift:96-104 | a transfer error or missing data reports an error, keeps the list and leaves `isLoading` as it was |
| UserApi.UpdateNeverTouchesList | frontend/swift/MyMovieList/API/UserAPI.swift:167-178 | the update completion never changes the list |
| UserApi.DeleteOutcomes | frontend/swift/MyMovieList/API/UserAPI.swift:199-226 | a delete completion always lowers `isLoading`; an error wins over a message and keeps the list; a reply with neither changes nothing else; a decoding failure is reported |
| UserApi.DeleteRemovesEntries | frontend/swift/MyMovieList/API/UserAPI.swift:216-222 | a message without error is reported and removes every entry with the id, keeping the others in order |
| UserApi.FetchReplacesOrKeeps | frontend/swift/MyMovieList/API/UserAPI.swift:236-252 | a decoded list replaces the local one; anything else leaves the state unchanged; `isLoading` is never touched |
| UserApi.SignInOnlySetsUser | frontend/swift/MyMovieList/API/UserAPI.swift:25-60 | a decoded user is recorded and nothing else changes; any other outcome leaves the state; the same reply twice acts once |
| UserApi.UserViewModel.constructor | frontend/swift/MyMovieList/API/UserAPI.swift:17-22 | the view-model starts with empty lists, no user, no messages, not loading |
| UserApi.UserViewModel.Start | frontend/swift/MyMovieList/API/UserAPI.swift:65-91 | a valid URL starts the operation; an invalid one reports "Invalid URL" and sends nothing |
| UserApi.UserViewModel.StartAdd | frontend/swift/MyMovieList/API/UserAPI.swift:63-92 | the body sent carries the ids, title, poster and the flags as "true"/"false" |
| UserApi.UserViewModel.CompleteAdd | frontend/swift/MyMovieList/API/UserAPI.swift:93-120 | the new state is the add completion of the old one |
| UserApi.UserViewModel.StartUpdate | frontend/swift/MyMovieList/API/UserAPI.swift:125-152 | the body sent carries the ids and the flags' text |
| UserApi.UserViewModel.CompleteUpdate | frontend/swift/MyMovieList/API/UserAPI.swift:153-180 | the new state is the update completion of the old one |
| UserApi.UserViewModel.StartDelete | frontend/swift/MyMovieList/API/UserAPI.swift:185-198 | the path requested embeds the user id and the movie id |
| UserApi.UserViewModel.CompleteDelete | frontend/swift/MyMovieList/API/UserAPI.swift:199-228 | the new state is the delete completion of the old one |
| UserApi.UserViewModel.GetMoviesUserList | frontend/swift/MyMovieList/API/UserAPI.swift:232-254 | the path embeds the user id and the flags; the list is replaced by a decoded reply |
| UserApi.UserViewModel.StartAddReview | frontend/swift/MyMovieList/API/UserAPI.swift:257-285 | the request carries the review fields and the vote's decimal text to the movie's path |
| UserApi.UserViewModel.CompleteAddReview | frontend/swift/MyMovieList/API/UserAPI.swift:286-310 | the new state is the review-added completion of the old one |
| UserApi.UserViewModel.StartUpdateReview | frontend/swift/MyMovieList/API/UserAPI.swift:313-339 | the request carries the title, content and vote text to the review's path |
| UserApi.UserViewModel.CompleteUpdateReview | frontend/swift/MyMovieList/API/UserAPI.swift:340-363 | the new state is the review-updated completion of the old one |
| UserApi.UserViewModel.CompleteAppleSignIn | frontend/swift/MyMovieList/API/UserAPI.swift:25-60 | a decoded user is recorded; any other outcome is only printed and changes nothing |
| ListScreen.GridChoice | frontend/swift/MyMovieList/Views/MyMovieListView.swift:98-142 | the to-watch grid shows the to-watch list whatever the star; the watched grid shows the watched list, or the favourites with the star on |
| ListScreen.InitialFetchesCoverGrids | frontend/swift/MyMovieList/Views/MyMovieListView.swift:42-46 | the three fetches on appearance are distinct and cover every sub-list a grid can show |
| ListScreen.MyMovieListState.constructor | frontend/swift/MyMovieList/Views/MyMovieListView.swift:13-15 | the screen opens on the to-watch page with the star off |
| ListScreen.MyMovieListState.SelectFilter | frontend/swift/MyMovieList/Views/MyMovieListView.swift:36-38 | after a change of page, `watched` is whether the new page is the watched one; the star is unchanged |
| ListScreen.MyMovieListState.TapFavoriteFilter | frontend/swift/MyMovieList/Views/MyMovieListView.swift:48-55 | the button exists only on the watched page, and a tap flips the star |
| ListScreen.MyMovieListState.VisibleCollection | frontend/swift/MyMovieList/Views/MyMovieListView.swift:98-142 | the visible page shows the to-watch list, or the watched or favourites list by the star |
| UserEndpoints.Lower | backend/api/user.py:32 | lowering keeps the length and lowers each letter |
| UserEndpoints.ParseFlagTextSpelling | backend/api/user.py:31-34 | a flag is true iff its text spells "true" in any mix of cases |
| UserEndpoints.AddUpdateAlwaysMessage | backend/api/user.py:40-66 | with both flags given as text, add and update answer 200 with only a message, which is the success one iff a document changed |
| UserEndpoints.MissingFlagCrashes | backend/api/user.py:31-34 | a missing flag is not a 400: the handler raises and Flask answers 500 |
| UserEndpoints.DeleteResponses | backend/api/user.py:71-82 | a message iff something was removed; never an `error` key; 400 iff TypeError or ValueError, 500 iff another exception |
| UserEndpoints.AddReviewChecks | backend/api/user.py:103-116 | 400 iff user id, title, content, vote or movie id is falsy; a missing movie is an error with 200; the username is never checked |
| UserEndpoints.UpdateReviewChecks | backend/api/user.py:127-137 | 400 iff title, content, vote or review id is falsy; otherwise 200 with a message |
| Protocol.Sent | frontend/swift/MyMovieList/API/UserAPI.swift:70-84 | the server sees exactly the client's keys, each with its string |
| Protocol.Received | frontend/swift/MyMovieList/API/UserAPI.swift:214 | the envelope has a message or an error exactly when the body has that key |
| Protocol.FlagTextRoundTrip | backend/api/user.py:31-34 | the server parses the client's text of a flag back to the flag |
| Protocol.ListBodiesRoundTrip | backend/api/user.py:24-66 | the add and update bodies reach the database with the client's flags and are answered with 200 |
| Protocol.ListPathRoundTrip | backend/api/user.py:85-90 | the route reads back the client's user id and flags from the list URL |
| Protocol.ReviewBodiesPassCheck | backend/api/user.py:103-104 | a client review body fails the check iff its user id, title, content or path id is empty; the vote always passes |
| Protocol.DeleteReplyOnClient | frontend/swift/MyMovieList/API/UserAPI.swift:199-226 | only a real removal changes the client's list; every other server answer leaves the client's state as it was apart from `isLoading` |
| Protocol.RefusedReviewStillShown | frontend/swift/MyMovieList/API/UserAPI.swift:296-306 | a review of a movie the server does not know is refused with an error, yet the client appends it |
| MovieQueries.CreditNames | backend/db.py:141-149 | one name per credit, in order |
| MovieQueries.Select | backend/db.py:156 | the selection holds exactly the movies satisfying the filter, and is no longer than the collection |
| MovieQueries.WindowIsSlice | backend/db.py:102 | a page is the run of matches starting at the offset, no longer than a non-zero limit; empty past the end; the whole rest with limit 0 |
| MovieQueries.TotalIgnoresQuery | backend/db.py:103-104 | the reported total is the collection's size whatever the filter |
| MovieQueries.TotalCanExceedMatches | backend/db.py:103 | with one match in two movies the written total says two, not the one match the documentation (db.py:131-132) promises; the corrected total says one |
| MovieQueries.MatchingTotalCountsMatches | backend/db.py:131-132 | the corrected total is the number of matches: an error exactly for a negative offset, at most the collection's size, positive when something matches, never passed by the page's end, and the same page as written |
| MovieQueries.EffectiveProjectionFallback | backend/db.py:152-153 | an absent or empty projection becomes the six-field default; a non-empty one is kept |
| MovieQueries.BuildMoviesQuery | backend/db.py:136-149 | the filter has a title key iff the title is truthy, and a directors or actors key iff that argument is truthy, a single name wrapped in a list under `$in` |
| MovieQueries.QueryMeansWanted | backend/db.py:136-156 | under the credit-name paths a movie matches the filter iff its title, some director and some actor are as asked |
| MovieQueries.PersonFilterMatchesNothing | backend/db.py:141-149 | under the keys the code uses, any director or actor filter matches no stored movie |
| MovieQueries.GetMovies | backend/db.py:118-163 | as written: a negative offset is an error; a director or actor filter gives an empty page; otherwise the page of title matches, with the collection's size and the effective projection |
| MovieQueries.GetMoviesByName | backend/db.py:118-163 | corrected: the page of exactly the movies the filters ask for, with the number of those movies as the total, and the same error case and projection |
| MovieQueries.LoadedMovieWantedByName | backend/db.py:141-149 | a loaded movie is wanted by a filter naming any of its directors or actors |
| MovieQueries.NoFilterWantsAll | backend/db.py:136-149 | absent or empty filters admit every movie |
| MovieQueries.GenresQuerySelects | backend/db.py:179 | a list selects the movies with every listed genre (none for an empty list); a single genre, those with it |
| MovieQueries.ByGenresAndYearPages | backend/db.py:166-219 | both queries succeed for an offset ≥ 0 and return only collection movies with the genres or the year |
| SeedData.MovieDoc.constructor | main.py:23-33 | a document holds the title, poster, vote count, reviews and counters it is given: the loaded movie's, not zeros |
| SeedData.Sampled | utils/fakes.py:8-12 | one draw per pick, pairing the picked movie with its flag |
| SeedData.DistinctSampleHitsOnce | utils/fakes.py:8-14 | a sample of distinct positions hits each sampled movie once, with its drawn flag, and no other movie |
| SeedData.CountDraw | utils/fakes.py:11-14 | a sampled movie gains one addition, and one watch iff the flag is set |
| SeedData.GenerateUserMovieList | utils/fakes.py:6-22 | one title/poster/flag entry per draw, in order; every movie's counters rise by its hits and watched hits |
| SeedData.GenerateUser | utils/fakes.py:24-34 | n users with the identities given, each with the entries of its own sample; counters rise by all users' hits |
| SeedData.OlderRunIsPrefix | utils/fakes.py:53-59 | the run the scan walks is exactly the leading reviews older than the new one |
| SeedData.OlderRunOfPrefix | utils/fakes.py:53-59 | any older prefix followed by a non-older review or the end is that run |
| SeedData.FindInsertIndex | utils/fakes.py:54-59 | the scan returns the last position of the older run, or 0, and stays inside a non-empty list |
| SeedData.EmbeddedBounded | utils/fakes.py:52-63 | after an embedding a list holds at most five reviews; a short list is appended to |
| SeedData.EmbeddedIntoFull | utils/fakes.py:59-61 | on a full list the new review survives at the scan's index (at most 4) and exactly the former last review is dropped |
| SeedData.EmbeddedNotMostRecent | utils/fakes.py:61 | with five older reviews, the newest old one is dropped and the oldest kept, so the list is not the five most recent |
| SeedData.OldestIndex | utils/fakes.py:61 | the position of a review no more recent than any other, and the first such |
| SeedData.FindOldestIndex | utils/fakes.py:61 | the scan finds that position |
| SeedData.EmbeddedRecent | utils/fakes.py:61 | corrected: a short list is appended to; a full one keeps its length |
| SeedData.EmbeddedRecentKeepsLatest | utils/fakes.py:61 | corrected: only the old reviews and the new one stay, and none left out is more recent than one kept |
| SeedData.RecentDropsOldest | utils/fakes.py:61 | corrected: with five older reviews the oldest is dropped and the new one kept |
| SeedData.EmbedRecentReview | utils/fakes.py:52-63 | corrected: the movie's reviews become the most-recent-five embedding of the new review |
| SeedData.EmbedAllRecentKeepsLatest | main.py:111-114 | corrected: seeding an empty list keeps min(5, n) reviews, the first five as they came, only added ones, and none left out more recent than one kept |
| SeedData.EmbedAllBounded | utils/fakes.py:52-63 | from at most five reviews, any number of embeddings keeps at most five |
| SeedData.EmbedReview | utils/fakes.py:52-63 | the movie's reviews become the embedding of the new review into the old ones |
| SeedData.GenerateReviews | utils/fakes.py:36-66 | n reviews from the draws, in order; each movie gains one vote per draw choosing it and has exactly those reviews embedded, in order |
| SeedData.SeededMoviesBounded | utils/fakes.py:52-63 | a freshly loaded movie ends seeding with at most five embedded reviews |
| Ingest.SplitOn | main.py:34-37 | splitting yields at least one piece |
| Ingest.SplitThenJoin | main.py:34-37 | joining the pieces with ", " gives back the row's text |
| Ingest.SplitWithoutSeparator | main.py:42 | text without a comma is one piece |
| Ingest.Credits | main.py:39-45 | one credit per split name, in order |
| Ingest.MovieOfFields | main.py:21-63 | a movie keeps the row's vote count and starts with no reviews and zero added and watched counters; its list fields join back to the row's text; one credit per split name |
| Ingest.ColumnOccurrences | main.py:42-50 | one mention per name of a column, each carrying the column's kind and the row's movie |
| Ingest.FirstIndex | main.py:51-54 | the first position mentioning the name |
| Ingest.MoviesOfUnmentioned | main.py:51-56 | an unmentioned person has no movies |
| Ingest.RecordAllSummarizes | main.py:39-58 | after all mentions the dictionary's keys are exactly the mentioned names, each once, in first-mention order, typed by the first mention, with one movie per mention |
| Ingest.TroupeData | main.py:67-75 | one troupe record per dictionary key |
| Ingest.TroupeDataOfRows | main.py:16-77 | one record per distinct name, in first-mention order, typed by the first mention (cast before director), listing one movie per mention, with the placeholder picture |
| Ingest.ActorDirectorListedTwice | main.py:39-56 | a person in the cast and director fields of one movie is typed actor and lists that movie twice |
| Ingest.RecordColumn | main.py:40-58 | a column yields one credit per split name and records its mentions in order |
| Ingest.Document | main.py:191-192 | the document the seeders update starts with the loaded movie's title, poster, vote count (from the CSV), reviews and counters |
| Ingest.Documents | main.py:191-192 | one new, distinct document per loaded movie, in order, each with that movie's fields |
| Ingest.ReadRow | main.py:20-65 | one row becomes its movie document (split lists, split credits, no reviews, zero counters), and the dictionary records the row's cast mentions, then its director mentions |
| Ingest.GetMoviesAndTroupe | main.py:16-77 | one movie document per row, in row order, and the troupe data of every mention |
| Ingest.YearWindow | main.py:94 | the window is no longer than the rows |
| Ingest.YearWindowSelects | main.py:94 | a row is kept iff it is among the rows and released from 1995 to 2025; applying the window twice changes nothing |

## Findings

| source | as written | input that shows it | evidently intended | confidence | as-written member | corrected member |
|---|---|---|---|---|---|---|
| backend/db.py:141-149 | the director filter goes under `directors` and the actor filter under `cast`, both as `$in` of plain names, but the loader (main.py:39-58) stores `directors` and `actors` as lists of `{"full_name": …}` and writes no `cast` field | `get_movies(0, 10, directors="Christopher Nolan")` on the loaded collection: no movie matches, even one directed by him | filter on `directors.full_name` and `actors.full_name` | not executed; high that the keys miss the stored fields | MovieQueries.GetMovies | MovieQueries.GetMoviesByName |
| backend/db.py:103 | `paginate_query` reports `count_documents({})`, the size of the whole collection, while `get_movies` documents its second result as the number of movies matching the query (db.py:131-132) | two movies titled "Heat" and "Up", `get_movies(0, 10, title="Up")`: one movie returned, total 2 | count the matching documents | not executed; high, the documentation states the intent | MovieQueries.TotalCanExceedMatches | MovieQueries.MatchingTotalCountsMatches |
| utils/fakes.py:52-61 | on a full list the new review is inserted after the leading older reviews and the list is cut to its first five, although the comment at line 61 and main.py:111-114 say the five most recent reviews are kept | five reviews dated 1 to 5 and a new one dated 6: the list becomes 1, 2, 3, 4, 6, dropping 5 and keeping 1 | drop the oldest of the six | not executed; high, the comment states the intent | SeedData.EmbeddedNotMostRecent | SeedData.EmbeddedRecent |

## Left out

- Network I/O: URLSession tasks, `DispatchQueue.main.async` and JSON encoding and decoding. Each transfer's outcome is an input of the completion methods. Requests are returned as values, not sent.
- Concurrency: overlapping requests and rapid gestures. The model is sequential, one completion at a time.
- Whether `URL(string:)` accepts an address is an input. The base URL lives in `Connection.swift`, which is not part of this model.
- The "Failed to encode JSON" branches: encoding a dictionary of strings cannot fail, so those branches are not modelled.
- Floating point: `vote_average` and its rounding, budget and revenue, popularity, runtime, and the ISO release date. Votes in seeded reviews are reals and are only copied.
- Randomness and Faker: samples, choices, votes, identities, texts and dates are parameters. Dates are integers.
- SeedData.GenerateUserMovieList: `random.sample` raising ValueError when more movies are asked for than exist is not modelled. The picks are taken as in range.
- The rest of `pre_process_data`: the pandas reading, deduplication, column dropping and NA removal. Only the year window is modelled, and a year that fails to parse is `None`.
- UserEndpoints.Lower: Python's `str.lower` is modelled on ASCII letters only.
- UserEndpoints.JsonValue: request bodies carry strings, integers, booleans and null only; floats, arrays and objects are not modelled.
- MovieScreen.Stars: a negative `maximumRating`, on which the Swift range `1..<maximumRating + 1` traps, is excluded by the precondition rather than modelled as a crash.
- MovieQueries.PaginateQuery: the projection is recorded in the page but not applied to the returned documents, which keep all their fields.
- SeedData.GenerateReviews: it embeds reviews as the code does (`SeedData.EmbedReview`); the most-recent-five embedding is modelled beside it, not threaded through the seeding loop.
- `sort_movies` (backend/db.py:222-246): sorting by a caller-chosen field is not modelled.
- `project_movies` (backend/db.py:107-115): it is never called.
- The other database functions, the MongoDB connection and the `$jsonSchema` validator. The database's answers are inputs of the handlers.
- The handlers' parameter checks that are commented out in the source are not modelled.
- MovieQueries.GetMovies: exceptions other than a negative offset inside the `try` block are not modelled.
- The movie and troupe API clients, the SwiftUI layout and navigation, and Sign in with Apple.
- The data-holder model files, which disagree with how the view-model uses them. Records carry the fields the code actually reads and writes.
- The three sub-lists the movie screen searches are inputs. The user view-model shown does not declare them.
