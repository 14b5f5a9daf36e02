/**
 * The view model's unit-test scenarios as verified clients: each method
 * builds a fresh view model, drives one operation with the repository reply
 * the test stubs, and asserts what the test asserts.
 */
module HomeViewModelTest {
  import opened Wrappers
  import opened Constants
  import opened Entity
  import opened ViewModels

  const API_KEY: string := "api_key"
  const LANG: string := "lang"
  const SORT_BY: string := "sort_by.desc"
  const MOVIE_RELEASE_YEAR: string := "releaseYr"
  const INCLUDE_ADULT: bool := true
  const PAGE: Int32 := 11
  const VOTE_COUNT_GREATER_THAN: Int32 := 10000
  const GENRE: Int32 := 28

  /** The set-up: four fresh use cases and a view model built on them. */
  method SetUp(defaultFilters: DiscoverFilter, sortParam: (string, string) -> string)
    returns (vm: HomeViewModel)
    ensures fresh(vm) && fresh(vm.getGenresUseCase) && fresh(vm.getDiscoverMoviesUseCase)
    ensures fresh(vm.saveCacheDiscoverMoviesFiltersUseCase) && fresh(vm.getCacheDiscoverMovieFilterUseCase)
    ensures vm.getGenresUseCase.repositoryCalls == [] && vm.getDiscoverMoviesUseCase.repositoryCalls == []
    ensures vm.saveCacheDiscoverMoviesFiltersUseCase.repositoryCalls == []
    ensures vm.getCacheDiscoverMovieFilterUseCase.repositoryCalls == 0
    ensures vm.apiKey == API_KEY && vm.language == LANG
    ensures vm.defaultFilters == defaultFilters && vm.sortParam == sortParam
    ensures vm.genres == None && vm.discoverMovies == None && vm.discoverFilters == None
    ensures vm.apiParams == map[]
  {
    var genresUseCase := new GetGenresUseCase();
    var discoverUseCase := new GetDiscoverMoviesUseCase();
    var saveUseCase := new SaveCacheDiscoverMoviesFiltersUseCase();
    var cacheUseCase := new GetCacheDiscoverMovieFilterUseCase();
    vm := new HomeViewModel(genresUseCase, discoverUseCase, saveUseCase, cacheUseCase,
                            API_KEY, LANG, defaultFilters, sortParam);
  }

  method LoadGenresScenarios(genreList: GenreList, defaultFilters: DiscoverFilter,
                             sortParam: (string, string) -> string)
  {
    var params := map[PARAM_API_KEY := S(API_KEY), PARAM_LANGUAGE := S(LANG)];

    var vm := SetUp(defaultFilters, sortParam);
    vm.LoadGenres(params, Present(genreList));
    assert vm.getGenresUseCase.params.value[PARAM_API_KEY] == S(API_KEY);
    assert vm.getGenresUseCase.params.value[PARAM_LANGUAGE] == S(LANG);
    assert |vm.getGenresUseCase.repositoryCalls| == 1;
    assert vm.getGenresUseCase.repositoryCalls[0][PARAM_API_KEY] == S(API_KEY);
    assert vm.getGenresUseCase.repositoryCalls[0][PARAM_LANGUAGE] == S(LANG);
    assert vm.genres == Some(genreList) && !vm.loadingState;

    vm := SetUp(defaultFilters, sortParam);
    vm.LoadGenres(params, Absent);
    assert vm.genreErrorState.value.message == NO_DATA_ERR && vm.genres == None;
    assert !vm.loadingState;

    vm := SetUp(defaultFilters, sortParam);
    vm.LoadGenres(params, Thrown);
    assert vm.genreErrorState.value.message == NETWORK_ERROR_DEFAULT;
    assert vm.genres == None && !vm.loadingState;
  }

  method LoadDiscoverMoviesScenarios(movies: seq<MovieEntity>, defaultFilters: DiscoverFilter,
                                     sortParam: (string, string) -> string)
  {
    var params := map[PARAM_API_KEY := S(API_KEY), PARAM_LANGUAGE := S(LANG), PARAM_GENRES := I(GENRE),
                      PARAM_SORT_BY := S(SORT_BY), PARAM_INCLUDE_ADULT := B(INCLUDE_ADULT),
                      PARAM_PAGE := I(PAGE), PARAM_VOTE_COUNT_GREATER_THAN := I(VOTE_COUNT_GREATER_THAN)];
    var page := DiscoverMovies(movies, GENRE);

    var vm := SetUp(defaultFilters, sortParam);
    vm.LoadDiscoverMovies(params, Present(page));
    assert vm.getDiscoverMoviesUseCase.params[PARAM_API_KEY] == S(API_KEY);
    assert vm.getDiscoverMoviesUseCase.params[PARAM_LANGUAGE] == S(LANG);
    assert vm.getDiscoverMoviesUseCase.params[PARAM_GENRES] == I(GENRE);
    assert vm.getDiscoverMoviesUseCase.params[PARAM_PAGE] == I(PAGE);
    assert vm.getDiscoverMoviesUseCase.params[PARAM_SORT_BY] == S(SORT_BY);
    assert vm.getDiscoverMoviesUseCase.params[PARAM_INCLUDE_ADULT] == B(INCLUDE_ADULT);
    assert vm.getDiscoverMoviesUseCase.params[PARAM_VOTE_COUNT_GREATER_THAN] == I(VOTE_COUNT_GREATER_THAN);
    assert |vm.getDiscoverMoviesUseCase.repositoryCalls| == 1;
    assert vm.getDiscoverMoviesUseCase.repositoryCalls[0] == params;
    assert vm.getDiscoverMoviesUseCase.repositoryCalls[0][PARAM_VOTE_COUNT_GREATER_THAN] == I(VOTE_COUNT_GREATER_THAN);
    assert vm.discoverMovies == Some(page) && vm.discoverMovies.value.grp_genre_id == GENRE;
    assert !vm.loadingState;

    vm := SetUp(defaultFilters, sortParam);
    vm.LoadDiscoverMovies(params, Absent);
    assert vm.discoverMovies == None && !vm.loadingState;
    assert vm.discoverMoviesErrorState.value.errorMessage == NO_DATA_ERR;
    assert vm.discoverMoviesErrorState.value.grp_genre_id == Some(I(GENRE));

    vm := SetUp(defaultFilters, sortParam);
    vm.LoadDiscoverMovies(params, Thrown);
    assert vm.discoverMovies == None && !vm.loadingState;
    assert vm.discoverMoviesErrorState.value.errorMessage == NETWORK_ERROR_DEFAULT;
    assert vm.discoverMoviesErrorState.value.grp_genre_id == Some(I(GENRE));
  }

  method SaveDiscoverMoviesFilterScenarios(saved: DiscoverFilter, defaultFilters: DiscoverFilter,
                                           sortParam: (string, string) -> string)
  {
    var vm := SetUp(defaultFilters, sortParam);
    vm.SaveDiscoverMoviesFilters(VOTE_COUNT_GREATER_THAN, INCLUDE_ADULT, SORT_BY, MOVIE_RELEASE_YEAR, Present(saved));
    assert vm.saveCacheDiscoverMoviesFiltersUseCase.minVoteCount == VOTE_COUNT_GREATER_THAN;
    assert vm.saveCacheDiscoverMoviesFiltersUseCase.includeAdultContent == INCLUDE_ADULT;
    assert vm.saveCacheDiscoverMoviesFiltersUseCase.orderBy == SORT_BY;
    assert vm.saveCacheDiscoverMoviesFiltersUseCase.releaseYearStr == MOVIE_RELEASE_YEAR;
    assert vm.saveCacheDiscoverMoviesFiltersUseCase.repositoryCalls ==
             [SaveCall(VOTE_COUNT_GREATER_THAN, INCLUDE_ADULT, SORT_BY, MOVIE_RELEASE_YEAR)];
    assert vm.discoverFilters == Some(saved);

    vm := SetUp(defaultFilters, sortParam);
    vm.SaveDiscoverMoviesFilters(VOTE_COUNT_GREATER_THAN, INCLUDE_ADULT, SORT_BY, MOVIE_RELEASE_YEAR, Thrown);
    assert vm.discoverFilters == None;
    assert vm.discoverFiltersErrorState.value.message == SAVE_TO_PREF_ERROR_DEFAULT;
  }

  method LoadDiscoverMovieFiltersScenarios(defaultFilters: DiscoverFilter)
  {
    // a cached filter whose sort type and field combine into SORT_BY
    var sortParam := (sortType: string, sortBy: string) => sortBy + "." + sortType;
    var cached := DiscoverFilter(VOTE_COUNT_GREATER_THAN, INCLUDE_ADULT, "desc", "sort_by", MOVIE_RELEASE_YEAR);

    var vm := SetUp(defaultFilters, sortParam);
    vm.LoadDiscoverMovieFiltersAndHoldInApiParamMap(Present(None));
    assert vm.discoverFilters == Some(defaultFilters);
    assert vm.apiParams[PARAM_API_KEY] == S(API_KEY) && vm.apiParams[PARAM_LANGUAGE] == S(LANG);
    assert vm.apiParams[PARAM_SORT_BY] == S(DEFAULT_ORDER_BY);
    assert vm.apiParams[PARAM_VOTE_COUNT_GREATER_THAN] == I(0);
    assert vm.apiParams[PARAM_INCLUDE_ADULT] == B(false);
    assert PARAM_RELEASE_YEAR !in vm.apiParams;

    vm := SetUp(defaultFilters, sortParam);
    vm.LoadDiscoverMovieFiltersAndHoldInApiParamMap(Present(Some(cached)));
    assert vm.discoverFilters == Some(cached);
    assert vm.apiParams[PARAM_API_KEY] == S(API_KEY) && vm.apiParams[PARAM_LANGUAGE] == S(LANG);
    assert vm.apiParams[PARAM_SORT_BY] == S(SORT_BY);
    assert vm.apiParams[PARAM_VOTE_COUNT_GREATER_THAN] == I(VOTE_COUNT_GREATER_THAN);
    assert vm.apiParams[PARAM_INCLUDE_ADULT] == B(INCLUDE_ADULT);
    assert vm.apiParams[PARAM_RELEASE_YEAR] == S(MOVIE_RELEASE_YEAR);
  }
}
