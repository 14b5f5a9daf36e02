# Movies discovery core in Dafny

A model of the core of the Movies Android app (package `bd.emon.movies`), and proofs about it:

- **Entities** (`entity.dfy`, `decimal.dfy`). `MovieEntity` is an immutable record `(id, title, poster_path)`. It has two derived strings:
  - `imageUrl`: `IMAGE_BASE_URL` followed by the poster path;
  - `idString`: Kotlin's `Int.toString` of the 32-bit id.

  `DiscoverFilter` is an immutable five-field record. Decimal rendering comes with an inverse parser, and the round trip is proved.
- **Movie list adapter** (`movie_list_adapter.dfy`, module `Home`). The home screen's `MovieListAdapter` is a class.
  - It holds a reference to the caller's movie list (a `MovieList` object), and `AddMoreMovies` appends to that list in place, so the caller sees the new movies too. Appending the adapter's own list doubles it.
  - With paging on, two loader rows follow the movies.
  - Positions are classified as movie or loader rows.
  - `onCreateViewHolder` rejects unknown view types.
  - Binding a loader row collapses it when no more data is available, and asks the paging helper for the next page only from the first loader row.
  - Each `notifyItemRangeChanged(start, count)` call is recorded as a `RangeNotice`.
- **Home view model** (`home_view_model.dfy`, module `ViewModels`). `HomeViewModel` is not part of this model as source; its behaviour is taken from `HomeViewModelTest`. It is a class with these observable slots: `genres`, `discoverMovies`, `discoverFilters`, `loadingState`, three error states, and the `apiParams` map. It has four operations, each going through one use case:
  - Each use case records its last arguments and every repository call it makes.
  - The repository's answer is a parameter of type `Reply<T>`: `Present(v)` (an `Optional` with a value), `Absent` (an empty `Optional`) or `Thrown` (the call raised).
  - The cached-filter read answers `Present(Some(f))` or `Present(None)`. `Present(None)` stands for `Optional.of(null)`.
  - `HoldFilterInParams` states how the filter read seeds the parameter map.
- **Unit-test scenarios** (`home_view_model_test.dfy`). The view-model tests are written as verified client methods: they build a fresh view model, stub the reply, and assert the outcomes the test checks.

## Model

| member | source | states |
|---|---|---|
| `Entity.ImageUrl` | app/src/main/java/bd/emon/movies/entity/common/MovieEntity.kt:13-14 | the URL is as long as base URL and poster path together, starts with `IMAGE_BASE_URL` and ends with the poster path |
| `Entity.ImageUrlDeterminedByPoster` | app/src/main/java/bd/emon/movies/entity/common/MovieEntity.kt:13-14 | two movies have the same image URL exactly when they have the same poster path |
| `Entity.IdString` | app/src/main/java/bd/emon/movies/entity/common/MovieEntity.kt:16-17 | the id string has 1 to 11 characters, parses back to the id, starts with `-` exactly for negative ids, and has no leading zero; id 0 gives exactly `"0"` |
| `Entity.IdStringDeterminedById` | app/src/main/java/bd/emon/movies/entity/common/MovieEntity.kt:16-17 | two movies have the same id string exactly when they have the same id |
| `Entity.MovieEqualityIsStructural` | app/src/main/java/bd/emon/movies/entity/common/MovieEntity.kt:8-11 | movie equality is equality of id, title and poster path; equal movies have equal derived strings |
| `Entity.FilterEqualityIsFieldWise` | app/src/main/java/bd/emon/movies/entity/discover/DiscoverFilter.kt:3-9 | two filters are equal exactly when all five fields are equal |
| `Decimal.NatToDecimal` | app/src/main/java/bd/emon/movies/entity/common/MovieEntity.kt:17 | the rendering of a natural number is a non-empty string of digits whose first digit is `0` only for 0 itself |
| `Decimal.IntToDecimal` | app/src/main/java/bd/emon/movies/entity/common/MovieEntity.kt:17 | the rendering starts with `-` exactly for negative numbers; the rest is digits with no leading zero; 0 gives exactly `"0"` |
| `Decimal.NatRoundTrip` | app/src/main/java/bd/emon/movies/entity/common/MovieEntity.kt:17 | reading the digits of a natural number back gives the number |
| `Decimal.IntRoundTrip` | app/src/main/java/bd/emon/movies/entity/common/MovieEntity.kt:17 | parsing the rendering of any integer gives that integer |
| `Decimal.IntToDecimalInjective` | app/src/main/java/bd/emon/movies/entity/common/MovieEntity.kt:17 | two integers render the same exactly when they are equal |
| `Decimal.NatToDecimalLength` | app/src/main/java/bd/emon/movies/entity/common/MovieEntity.kt:17 | a number below 10^k renders in at most k digits |
| `Home.ItemViewType` | app/src/main/java/bd/emon/movies/home/MovieListAdapter.kt:94-99 | the view type is `MOVIE_ENTITY` or `LOADER_VIEW`, and `LOADER_VIEW` exactly when the position is at or past the movie count |
| `Home.LoaderRows` | app/src/main/java/bd/emon/movies/home/MovieListAdapter.kt:87-99 | within the item count, with paging on exactly positions `n` and `n+1` are loaders; with paging off no position is a loader |
| `Home.ItemCountCountsLoaders` | app/src/main/java/bd/emon/movies/home/MovieListAdapter.kt:87-92 | the item count exceeds the movie count by the number of positions in `[0, itemCount)` whose view type is `LOADER_VIEW`: 2 with paging on, 0 with paging off |
| `Home.HolderKindOf` | app/src/main/java/bd/emon/movies/home/MovieListAdapter.kt:47-70 | type 1 gives a movie holder, type 2 a loader holder, and every other type fails with `INVALID_VIEW_HOLDER` |
| `Home.ReportedViewTypesAreCreatable` | app/src/main/java/bd/emon/movies/home/MovieListAdapter.kt:47-70 | every type the adapter reports for a position is accepted by view-holder creation, which picks the loader layout exactly for positions past the movies |
| `Home.LoaderBinding` | app/src/main/java/bd/emon/movies/home/MovieListAdapter.kt:76-84 | a bound loader collapses exactly when no more data is available; it fetches exactly when more data is available and it sits at the movie count; it never does both |
| `Home.OnlyFirstLoaderFetches` | app/src/main/java/bd/emon/movies/home/MovieListAdapter.kt:81-83 | a fetching position is the first loader row; at most one position fetches; the second loader row never fetches |
| `Home.HideNoticeCoversLoaders` | app/src/main/java/bd/emon/movies/home/MovieListAdapter.kt:107-109 | the range `hideLoaders` notifies covers exactly the loader rows of the list with paging on |
| `Home.AppendKeepsOldRows` | app/src/main/java/bd/emon/movies/home/MovieListAdapter.kt:101-105 | after an append, every old row is still a movie row with the same movie, and the notified range covers exactly the new rows |
| `Home.ViewHolder.constructor` | app/src/main/java/bd/emon/movies/home/MovieListAdapter.kt:30-45 | a new holder has the given kind (movie or loader binding), shows no movie and is not collapsed |
| `Home.MovieList.constructor` | app/src/main/java/bd/emon/movies/home/MovieListAdapter.kt:19 | a new mutable list holds exactly the given movies |
| `Home.MovieListAdapter.constructor` | app/src/main/java/bd/emon/movies/home/MovieListAdapter.kt:18-25 | the adapter keeps the caller's list object, paging flag and paging helper, and no notices |
| `Home.MovieListAdapter.GetItemCount` | app/src/main/java/bd/emon/movies/home/MovieListAdapter.kt:87-92 | the adapter's item count is `ItemCount` of its current list and paging flag |
| `Home.MovieListAdapter.GetItemViewType` | app/src/main/java/bd/emon/movies/home/MovieListAdapter.kt:94-99 | the adapter's view type is `ItemViewType` of its current list |
| `Home.MovieListAdapter.OnCreateViewHolder` | app/src/main/java/bd/emon/movies/home/MovieListAdapter.kt:47-70 | an unknown type fails with `INVALID_VIEW_HOLDER`; a known type gives a fresh holder of the matching kind |
| `Home.MovieListAdapter.OnBindViewHolder` | app/src/main/java/bd/emon/movies/home/MovieListAdapter.kt:72-85 | a movie row shows `movies[p]`, or raises when `p` is out of range; a loader row raises without a paging helper; otherwise it applies `LoaderBinding`, with `loadNextPage` called once or not at all; the list and notices do not change |
| `Home.MovieListAdapter.AddMoreMovies` | app/src/main/java/bd/emon/movies/home/MovieListAdapter.kt:101-105 | the shared list becomes the old list followed by the entities' old contents; the old prefix is unchanged; a different entities list is untouched; `(old size, entities size after the append)` is notified, which is `(n, 2n)` when the entities list is the adapter's own |
| `Home.MovieListAdapter.HideLoaders` | app/src/main/java/bd/emon/movies/home/MovieListAdapter.kt:107-109 | the list is unchanged and `(size, 2)` is notified |
| `ViewModels.GenreGroupOf` | app/src/test/java/bd/emon/movies/viewModels/HomeViewModelTest.kt:437-450 | a movie error is tagged with the request's `PARAM_GENRES` entry, or with nothing when the request has none |
| `ViewModels.HoldFilterInParams` | app/src/test/java/bd/emon/movies/viewModels/HomeViewModelTest.kt:610-647 | after the filter read the map holds the api key and language. With no cached filter it holds `DEFAULT_ORDER_BY`, vote floor 0, adult false and no release year. With a cached filter it holds that filter's sort, vote floor, adult flag and release year. Every other key is kept |
| `ViewModels.HoldFilterLatestWins` | app/src/test/java/bd/emon/movies/viewModels/HomeViewModelTest.kt:600-647 | holding a second filter after a first gives the same map as holding only the second |
| `ViewModels.GetGenresUseCase.Execute` | app/src/test/java/bd/emon/movies/viewModels/HomeViewModelTest.kt:105-124 | the use case records the map and makes one repository call with that same map; the reply is passed on unchanged |
| `ViewModels.GetDiscoverMoviesUseCase.Execute` | app/src/test/java/bd/emon/movies/viewModels/HomeViewModelTest.kt:194-370 | the use case records the map and makes one repository call with that same map; the reply is passed on unchanged |
| `ViewModels.SaveCacheDiscoverMoviesFiltersUseCase.Execute` | app/src/test/java/bd/emon/movies/viewModels/HomeViewModelTest.kt:515-551 | the use case stores the four arguments in its fields and makes one repository call with them in order (int, bool, string, string) |
| `ViewModels.GetCacheDiscoverMovieFilterUseCase.Execute` | app/src/test/java/bd/emon/movies/viewModels/HomeViewModelTest.kt:709-721 | the use case makes one repository call and passes the reply on unchanged |
| `ViewModels.HomeViewModel.constructor` | app/src/test/java/bd/emon/movies/viewModels/HomeViewModelTest.kt:84-103 | the view model keeps the four use cases, api key and language; every slot starts unset; the map starts empty |
| `ViewModels.HomeViewModel.LoadGenres` | app/src/test/java/bd/emon/movies/viewModels/HomeViewModelTest.kt:105-192 | the map goes through to one repository call. `Present` publishes the genres. `Absent` gives `NO_DATA_ERR` and `Thrown` gives `NETWORK_ERROR_DEFAULT`, with genres untouched. Loading ends false. No other slot changes |
| `ViewModels.HomeViewModel.LoadDiscoverMovies` | app/src/test/java/bd/emon/movies/viewModels/HomeViewModelTest.kt:194-513 | the map goes through to one repository call. `Present` publishes the result with its own `grp_genre_id`. `Absent` or `Thrown` gives `NO_DATA_ERR` or `NETWORK_ERROR_DEFAULT`, tagged with the request's `PARAM_GENRES` value, with the movies untouched. Loading ends false. No other slot changes |
| `ViewModels.HomeViewModel.SaveDiscoverMoviesFilters` | app/src/test/java/bd/emon/movies/viewModels/HomeViewModelTest.kt:515-598 | the four values reach the use case and one repository call in order. Success publishes the returned filter. `Thrown` gives `SAVE_TO_PREF_ERROR_DEFAULT` with the filter untouched. No other slot changes |
| `ViewModels.HomeViewModel.LoadDiscoverMovieFiltersAndHoldInApiParamMap` | app/src/test/java/bd/emon/movies/viewModels/HomeViewModelTest.kt:600-647 | a cached filter is published and held by `HoldFilterInParams`. With none cached, the default filter is published and the defaults are held. Either way the api key and language are in the map afterwards |
| `HomeViewModelTest.SetUp` | app/src/test/java/bd/emon/movies/viewModels/HomeViewModelTest.kt:84-103 | the fixture builds a view model on four fresh use cases that have made no repository calls, with the test's api key and language |
| `HomeViewModelTest.LoadGenresScenarios` | app/src/test/java/bd/emon/movies/viewModels/HomeViewModelTest.kt:105-192 | with the test's map, the use case and the repository receive the api key and language; a reply publishes the genres; an empty or raising reply publishes `NO_DATA_ERR` or `NETWORK_ERROR_DEFAULT`; loading ends false |
| `HomeViewModelTest.LoadDiscoverMoviesScenarios` | app/src/test/java/bd/emon/movies/viewModels/HomeViewModelTest.kt:194-513 | with the test's seven-entry map, the use case and the single repository call receive that whole map, including the api key, language, genre, sort order, adult flag, page and vote floor; a reply publishes the result with the requested genre; an empty or raising reply publishes the matching error tagged with the genre; loading ends false |
| `HomeViewModelTest.SaveDiscoverMoviesFilterScenarios` | app/src/test/java/bd/emon/movies/viewModels/HomeViewModelTest.kt:515-598 | the four filter values reach the use case and one repository call; success publishes the saved filter; a raising save publishes `SAVE_TO_PREF_ERROR_DEFAULT` |
| `HomeViewModelTest.LoadDiscoverMovieFiltersScenarios` | app/src/test/java/bd/emon/movies/viewModels/HomeViewModelTest.kt:600-647 | with no cached filter the map holds the defaults; with a cached filter it holds that filter's sort, vote floor, adult flag and release year; the api key and language are always there |
| `Home.PagingScenario` | app/src/main/java/bd/emon/movies/home/MovieListAdapter.kt:72-109 | with three movies and paging on, rows 3 and 4 are loaders; only row 3 fetches; a loader collapses once no more data is available; an append notifies `(3, 1)` and turns row 3 into a movie row |
| `Home.SelfAppendScenario` | app/src/main/java/bd/emon/movies/home/MovieListAdapter.kt:101-105 | appending the adapter's own two-movie list doubles the caller's list and notifies `(2, 4)` |

## Left out

- RxJava scheduling (`ASyncTransformer`) and LiveData delivery are left out. Each operation is one synchronous method that gets the repository's reply as a parameter.
- Supersession of stale results and the transient `loadingState == true` during a call are left out. No test observes either, and both are concurrency concerns.
- Mockito mocks and captors become recorder fields on the use cases (`params`, the four save arguments, `repositoryCalls`).
- The `HomeViewModel` implementation is not part of this model. Where the tests leave a case open, the model chooses:
  - A success leaves that operation's error slot unchanged.
  - `Present` is always a success, even with an empty list. No test says what an empty genre or movie list does.
  - An empty reply to a save publishes `NO_DATA_ERR` in the filter error slot.
  - A filter read that raises publishes `SAVE_TO_PREF_ERROR_DEFAULT` and leaves the filter and the map unchanged.
  - An empty filter read (`Absent`) is treated like `Present(None)`.
  - The two filter operations do not touch `loadingState`.
  - A new view model starts with an empty `apiParams` map; the api key and language enter it at the first filter read.
  - Saving a filter does not update `apiParams`. No test says whether a save changes the map.
- `HomeViewModelTest` line 392 expects the published result's `grp_genre_id` to be the requested genre. In the model this holds when the repository's result carries that id, as the scenario's result does. The model publishes the result exactly as returned.
- The model does not know how a filter's `sortType` and `sortBy` become the `PARAM_SORT_BY` value. It also does not know the contents of the default filter record. Both are constructor parameters of the model's `HomeViewModel` (`sortParam`, `defaultFilters`).
- "No release year" is modelled as the key being absent from `apiParams`. In Kotlin, reading a key that maps to null and reading a missing key both give null.
- `DiscoverMovies` has only the movie list and `grp_genre_id`. The response type's other fields are not part of this model.
- The values of `IMAGE_BASE_URL`, `DEFAULT_ORDER_BY`, the error messages, `INVALID_VIEW_HOLDER` and the `PARAM_*` keys are not part of this model. `constants.dfy` uses distinct stand-in strings, and no proof depends on their contents.
- `PagingHelper`'s page counter and exhaustion logic are not part of this model. `hasMoreData()` reads an input flag, and each `loadNextPage()` call is counted.
- Android UI is left out: inflation, `DataBindingUtil`, `ViewResizer`, the `shouldResize` flag and layout parameters. A collapsed loader (height 0, progress bar gone) is a single `collapsed` flag. A `notifyItemRangeChanged` call is a recorded `RangeNotice`.
- Room annotations and id uniqueness are left out, because the persistence engine enforces them.
- `Decimal.ParseDecimal` is the inverse used to state the round trip. It is not a model of Kotlin's `String.toInt`: it takes no `+` sign and does no 32-bit range check.
