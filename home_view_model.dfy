/**
 * The home screen's view model as its unit tests fix it: four operations
 * that go through one use case each, publish the repository's reply or a
 * typed error into their own state slots, and (for the filter read) seed
 * the API parameter map that later discover calls use.
 *
 * The repository is not called here: each operation receives the reply the
 * repository would give, as a Reply value.
 */
module ViewModels {
  import opened Wrappers
  import opened Constants
  import opened Entity

  /** A value of the API parameter map (Kotlin's HashMap<String, Any?>). */
  datatype ParamValue = S(s: string) | I(i: Int32) | B(b: bool)

  /** The API parameter map; a key that reads as null is absent. */
  type Params = map<string, ParamValue>

  datatype Genre = Genre(id: Int32, name: string)
  type GenreList = seq<Genre>

  /** One page of discovered movies, tagged with the genre group it was requested for. */
  datatype DiscoverMovies = DiscoverMovies(results: seq<MovieEntity>, grp_genre_id: Int32)

  /**
   * What a repository call gives back: an Optional with a value, an empty
   * Optional, or an exception.
   */
  datatype Reply<+T> = Present(value: T) | Absent | Thrown

  datatype ErrorState = ErrorState(message: string)

  /** A failed discover call, tagged with the PARAM_GENRES value of the request. */
  datatype MoviesErrorState = MoviesErrorState(errorMessage: string, grp_genre_id: Option<ParamValue>)

  /** The PARAM_GENRES entry of a request, or None when the key is absent. */
  function GenreGroupOf(params: Params): (g: Option<ParamValue>)
    ensures g.Some? <==> PARAM_GENRES in params
    ensures g.Some? ==> g.value == params[PARAM_GENRES]
  {
    if PARAM_GENRES in params then Some(params[PARAM_GENRES]) else None
  }

  /** The keys the filter read writes into the parameter map. */
  const FilterKeys: set<string> :=
    {PARAM_API_KEY, PARAM_LANGUAGE, PARAM_SORT_BY, PARAM_VOTE_COUNT_GREATER_THAN,
     PARAM_INCLUDE_ADULT, PARAM_RELEASE_YEAR}

  /**
   * The parameter map after the discover filter is held in it: api key and
   * language from construction; then either the defaults (DEFAULT_ORDER_BY,
   * vote floor 0, adult content excluded, no release year) or the cached
   * filter's sort, vote floor, adult flag and release year. Every other key
   * keeps its entry.
   */
  function HoldFilterInParams(base: Params, apiKey: string, language: string,
                              cached: Option<DiscoverFilter>,
                              sortParam: (string, string) -> string): (p: Params)
    ensures PARAM_API_KEY in p && p[PARAM_API_KEY] == S(apiKey)
    ensures PARAM_LANGUAGE in p && p[PARAM_LANGUAGE] == S(language)
    ensures PARAM_SORT_BY in p && PARAM_VOTE_COUNT_GREATER_THAN in p && PARAM_INCLUDE_ADULT in p
    ensures cached.None? ==>
              && p[PARAM_SORT_BY] == S(DEFAULT_ORDER_BY)
              && p[PARAM_VOTE_COUNT_GREATER_THAN] == I(0)
              && p[PARAM_INCLUDE_ADULT] == B(false)
              && PARAM_RELEASE_YEAR !in p
    ensures cached.Some? ==>
              && p[PARAM_SORT_BY] == S(sortParam(cached.value.sortType, cached.value.sortBy))
              && p[PARAM_VOTE_COUNT_GREATER_THAN] == I(cached.value.minVote)
              && p[PARAM_INCLUDE_ADULT] == B(cached.value.includeAdult)
              && PARAM_RELEASE_YEAR in p && p[PARAM_RELEASE_YEAR] == S(cached.value.releaseYear)
    ensures forall k :: k !in FilterKeys ==> (k in p <==> k in base)
    ensures forall k :: k !in FilterKeys && k in base ==> p[k] == base[k]
  {
    var fixed := (base - {PARAM_RELEASE_YEAR})[PARAM_API_KEY := S(apiKey)][PARAM_LANGUAGE := S(language)];
    match cached
    case None =>
      fixed[PARAM_SORT_BY := S(DEFAULT_ORDER_BY)]
           [PARAM_VOTE_COUNT_GREATER_THAN := I(0)]
           [PARAM_INCLUDE_ADULT := B(false)]
    case Some(f) =>
      fixed[PARAM_SORT_BY := S(sortParam(f.sortType, f.sortBy))]
           [PARAM_VOTE_COUNT_GREATER_THAN := I(f.minVote)]
           [PARAM_INCLUDE_ADULT := B(f.includeAdult)]
           [PARAM_RELEASE_YEAR := S(f.releaseYear)]
  }

  /**
   * Holding a filter twice is the same as holding it once, and a later hold
   * replaces every filter entry of an earlier one: the map is always the
   * one the latest filter read gives, whatever was held before.
   */
  lemma HoldFilterLatestWins(base: Params, apiKey: string, language: string,
                             first: Option<DiscoverFilter>, second: Option<DiscoverFilter>,
                             sortParam: (string, string) -> string)
    ensures HoldFilterInParams(HoldFilterInParams(base, apiKey, language, first, sortParam),
                               apiKey, language, second, sortParam)
            == HoldFilterInParams(base, apiKey, language, second, sortParam)
  {
  }

  /** The genre use case: records the map it was last given and calls the repository once. */
  class GetGenresUseCase {
    var params: Option<Params>
    /** The maps the repository's getGenres was called with, oldest first. */
    var repositoryCalls: seq<Params>

    constructor ()
      ensures params == None && repositoryCalls == []
    {
      params := None;
      repositoryCalls := [];
    }

    method Execute(params: Params, reply: Reply<GenreList>) returns (r: Reply<GenreList>)
      modifies this
      ensures this.params == Some(params)
      ensures repositoryCalls == old(repositoryCalls) + [params]
      ensures r == reply
    {
      this.params := Some(params);
      repositoryCalls := repositoryCalls + [params];
      r := reply;
    }
  }

  /** The discover use case: records the map it was last given and calls the repository once. */
  class GetDiscoverMoviesUseCase {
    var params: Params
    /** The maps the repository's getDiscoverMovies was called with, oldest first. */
    var repositoryCalls: seq<Params>

    constructor ()
      ensures params == map[] && repositoryCalls == []
    {
      params := map[];
      repositoryCalls := [];
    }

    method Execute(params: Params, reply: Reply<DiscoverMovies>) returns (r: Reply<DiscoverMovies>)
      modifies this
      ensures this.params == params
      ensures repositoryCalls == old(repositoryCalls) + [params]
      ensures r == reply
    {
      this.params := params;
      repositoryCalls := repositoryCalls + [params];
      r := reply;
    }
  }

  /** The four arguments of the cache repository's saveDiscoverMovieFilters, in call order. */
  datatype SaveCall = SaveCall(minVoteCount: Int32, includeAdultContent: bool, orderBy: string, releaseYearStr: string)

  /** The save-filter use case: records its four arguments and calls the repository once. */
  class SaveCacheDiscoverMoviesFiltersUseCase {
    var minVoteCount: Int32
    var includeAdultContent: bool
    var orderBy: string
    var releaseYearStr: string
    var repositoryCalls: seq<SaveCall>

    constructor ()
      ensures minVoteCount == 0 && !includeAdultContent && orderBy == "" && releaseYearStr == ""
      ensures repositoryCalls == []
    {
      minVoteCount := 0;
      includeAdultContent := false;
      orderBy := "";
      releaseYearStr := "";
      repositoryCalls := [];
    }

    method Execute(minVoteCount: Int32, includeAdultContent: bool, orderBy: string, releaseYearStr: string,
                   reply: Reply<DiscoverFilter>) returns (r: Reply<DiscoverFilter>)
      modifies this
      ensures this.minVoteCount == minVoteCount && this.includeAdultContent == includeAdultContent
      ensures this.orderBy == orderBy && this.releaseYearStr == releaseYearStr
      ensures repositoryCalls == old(repositoryCalls) + [SaveCall(minVoteCount, includeAdultContent, orderBy, releaseYearStr)]
      ensures r == reply
    {
      this.minVoteCount := minVoteCount;
      this.includeAdultContent := includeAdultContent;
      this.orderBy := orderBy;
      this.releaseYearStr := releaseYearStr;
      repositoryCalls := repositoryCalls + [SaveCall(minVoteCount, includeAdultContent, orderBy, releaseYearStr)];
      r := reply;
    }
  }

  /**
   * The cached-filter use case. Its reply is Present(Some(f)) when a filter
   * was saved before and Present(None) (Optional.of(null)) when none was.
   */
  class GetCacheDiscoverMovieFilterUseCase {
    var repositoryCalls: nat

    constructor ()
      ensures repositoryCalls == 0
    {
      repositoryCalls := 0;
    }

    method Execute(reply: Reply<Option<DiscoverFilter>>) returns (r: Reply<Option<DiscoverFilter>>)
      modifies this
      ensures repositoryCalls == old(repositoryCalls) + 1
      ensures r == reply
    {
      repositoryCalls := repositoryCalls + 1;
      r := reply;
    }
  }

  class HomeViewModel {
    const getGenresUseCase: GetGenresUseCase
    const getDiscoverMoviesUseCase: GetDiscoverMoviesUseCase
    const saveCacheDiscoverMoviesFiltersUseCase: SaveCacheDiscoverMoviesFiltersUseCase
    const getCacheDiscoverMovieFilterUseCase: GetCacheDiscoverMovieFilterUseCase
    const apiKey: string
    const language: string
    /** The filter published when none was ever cached. */
    const defaultFilters: DiscoverFilter
    /** How a filter's sort type and sort field become the PARAM_SORT_BY value. */
    const sortParam: (string, string) -> string

    // observable state slots; None is a LiveData value never set
    var genres: Option<GenreList>
    var discoverMovies: Option<DiscoverMovies>
    var discoverFilters: Option<DiscoverFilter>
    var loadingState: bool
    var genreErrorState: Option<ErrorState>
    var discoverMoviesErrorState: Option<MoviesErrorState>
    var discoverFiltersErrorState: Option<ErrorState>
    var apiParams: Params

    constructor (getGenresUseCase: GetGenresUseCase,
                 getDiscoverMoviesUseCase: GetDiscoverMoviesUseCase,
                 saveCacheDiscoverMoviesFiltersUseCase: SaveCacheDiscoverMoviesFiltersUseCase,
                 getCacheDiscoverMovieFilterUseCase: GetCacheDiscoverMovieFilterUseCase,
                 apiKey: string, language: string,
                 defaultFilters: DiscoverFilter, sortParam: (string, string) -> string)
      ensures this.getGenresUseCase == getGenresUseCase
      ensures this.getDiscoverMoviesUseCase == getDiscoverMoviesUseCase
      ensures this.saveCacheDiscoverMoviesFiltersUseCase == saveCacheDiscoverMoviesFiltersUseCase
      ensures this.getCacheDiscoverMovieFilterUseCase == getCacheDiscoverMovieFilterUseCase
      ensures this.apiKey == apiKey && this.language == language
      ensures this.defaultFilters == defaultFilters && this.sortParam == sortParam
      ensures genres == None && discoverMovies == None && discoverFilters == None && !loadingState
      ensures genreErrorState == None && discoverMoviesErrorState == None && discoverFiltersErrorState == None
      ensures apiParams == map[]
    {
      this.getGenresUseCase := getGenresUseCase;
      this.getDiscoverMoviesUseCase := getDiscoverMoviesUseCase;
      this.saveCacheDiscoverMoviesFiltersUseCase := saveCacheDiscoverMoviesFiltersUseCase;
      this.getCacheDiscoverMovieFilterUseCase := getCacheDiscoverMovieFilterUseCase;
      this.apiKey := apiKey;
      this.language := language;
      this.defaultFilters := defaultFilters;
      this.sortParam := sortParam;
      genres := None;
      discoverMovies := None;
      discoverFilters := None;
      loadingState := false;
      genreErrorState := None;
      discoverMoviesErrorState := None;
      discoverFiltersErrorState := None;
      apiParams := map[];
    }

    /** The api key and language are in the parameter map with their construction values. */
    ghost predicate HoldsCredentials()
      reads this
    {
      && PARAM_API_KEY in apiParams && apiParams[PARAM_API_KEY] == S(apiKey)
      && PARAM_LANGUAGE in apiParams && apiParams[PARAM_LANGUAGE] == S(language)
    }

    /**
     * Passes the caller's map to the genre use case unchanged; publishes the
     * genres on a reply with data, NO_DATA_ERR on an empty reply and
     * NETWORK_ERROR_DEFAULT on an exception, leaving the genres unset on
     * both failures. Loading ends false; no other slot changes.
     */
    method LoadGenres(params: Params, reply: Reply<GenreList>)
      modifies this, getGenresUseCase
      ensures getGenresUseCase.params == Some(params)
      ensures getGenresUseCase.repositoryCalls == old(getGenresUseCase.repositoryCalls) + [params]
      ensures reply.Present? ==> genres == Some(reply.value) && genreErrorState == old(genreErrorState)
      ensures reply.Absent? ==> genres == old(genres) && genreErrorState == Some(ErrorState(NO_DATA_ERR))
      ensures reply.Thrown? ==> genres == old(genres) && genreErrorState == Some(ErrorState(NETWORK_ERROR_DEFAULT))
      ensures !loadingState
      ensures discoverMovies == old(discoverMovies) && discoverMoviesErrorState == old(discoverMoviesErrorState)
      ensures discoverFilters == old(discoverFilters) && discoverFiltersErrorState == old(discoverFiltersErrorState)
      ensures apiParams == old(apiParams)
    {
      loadingState := true;
      var r := getGenresUseCase.Execute(params, reply);
      match r {
        case Present(g) => genres := Some(g);
        case Absent => genreErrorState := Some(ErrorState(NO_DATA_ERR));
        case Thrown => genreErrorState := Some(ErrorState(NETWORK_ERROR_DEFAULT));
      }
      loadingState := false;
    }

    /**
     * Passes the caller's map to the discover use case unchanged; publishes
     * the result (with its own genre group id) on a reply with data; on an
     * empty reply or an exception publishes NO_DATA_ERR or
     * NETWORK_ERROR_DEFAULT tagged with the request's PARAM_GENRES value and
     * leaves the movies unset. Loading ends false; no other slot changes.
     */
    method LoadDiscoverMovies(params: Params, reply: Reply<DiscoverMovies>)
      modifies this, getDiscoverMoviesUseCase
      ensures getDiscoverMoviesUseCase.params == params
      ensures getDiscoverMoviesUseCase.repositoryCalls == old(getDiscoverMoviesUseCase.repositoryCalls) + [params]
      ensures reply.Present? ==>
                discoverMovies == Some(reply.value) && discoverMoviesErrorState == old(discoverMoviesErrorState)
      ensures reply.Absent? ==>
                discoverMovies == old(discoverMovies)
                && discoverMoviesErrorState == Some(MoviesErrorState(NO_DATA_ERR, GenreGroupOf(params)))
      ensures reply.Thrown? ==>
                discoverMovies == old(discoverMovies)
                && discoverMoviesErrorState == Some(MoviesErrorState(NETWORK_ERROR_DEFAULT, GenreGroupOf(params)))
      ensures !loadingState
      ensures genres == old(genres) && genreErrorState == old(genreErrorState)
      ensures discoverFilters == old(discoverFilters) && discoverFiltersErrorState == old(discoverFiltersErrorState)
      ensures apiParams == old(apiParams)
    {
      loadingState := true;
      var r := getDiscoverMoviesUseCase.Execute(params, reply);
      match r {
        case Present(m) => discoverMovies := Some(m);
        case Absent => discoverMoviesErrorState := Some(MoviesErrorState(NO_DATA_ERR, GenreGroupOf(params)));
        case Thrown => discoverMoviesErrorState := Some(MoviesErrorState(NETWORK_ERROR_DEFAULT, GenreGroupOf(params)));
      }
      loadingState := false;
    }

    /**
     * Hands the four values to the save use case in order; publishes the
     * saved filter on success, SAVE_TO_PREF_ERROR_DEFAULT on an exception
     * and NO_DATA_ERR on an empty reply, leaving the published filter
     * untouched on both failures. No other slot changes.
     */
    method SaveDiscoverMoviesFilters(minVoteCount: Int32, includeAdultContent: bool, orderBy: string,
                                     releaseYearStr: string, reply: Reply<DiscoverFilter>)
      modifies this, saveCacheDiscoverMoviesFiltersUseCase
      ensures saveCacheDiscoverMoviesFiltersUseCase.minVoteCount == minVoteCount
      ensures saveCacheDiscoverMoviesFiltersUseCase.includeAdultContent == includeAdultContent
      ensures saveCacheDiscoverMoviesFiltersUseCase.orderBy == orderBy
      ensures saveCacheDiscoverMoviesFiltersUseCase.releaseYearStr == releaseYearStr
      ensures saveCacheDiscoverMoviesFiltersUseCase.repositoryCalls ==
                old(saveCacheDiscoverMoviesFiltersUseCase.repositoryCalls)
                + [SaveCall(minVoteCount, includeAdultContent, orderBy, releaseYearStr)]
      ensures reply.Present? ==>
                discoverFilters == Some(reply.value) && discoverFiltersErrorState == old(discoverFiltersErrorState)
      ensures reply.Absent? ==>
                discoverFilters == old(discoverFilters) && discoverFiltersErrorState == Some(ErrorState(NO_DATA_ERR))
      ensures reply.Thrown? ==>
                discoverFilters == old(discoverFilters)
                && discoverFiltersErrorState == Some(ErrorState(SAVE_TO_PREF_ERROR_DEFAULT))
      ensures loadingState == old(loadingState)
      ensures genres == old(genres) && genreErrorState == old(genreErrorState)
      ensures discoverMovies == old(discoverMovies) && discoverMoviesErrorState == old(discoverMoviesErrorState)
      ensures apiParams == old(apiParams)
    {
      var r := saveCacheDiscoverMoviesFiltersUseCase.Execute(minVoteCount, includeAdultContent, orderBy, releaseYearStr, reply);
      match r
      case Present(f) => discoverFilters := Some(f);
      case Absent => discoverFiltersErrorState := Some(ErrorState(NO_DATA_ERR));
      case Thrown => discoverFiltersErrorState := Some(ErrorState(SAVE_TO_PREF_ERROR_DEFAULT));
    }

    /**
     * Reads the cached filter once. A cached filter is published and held
     * in the parameter map; with none cached the default filter is published
     * and the defaults are held. Either way the api key and language are in
     * the map afterwards. An exception publishes SAVE_TO_PREF_ERROR_DEFAULT
     * and leaves the filter and the map as they were. No other slot changes.
     */
    method LoadDiscoverMovieFiltersAndHoldInApiParamMap(reply: Reply<Option<DiscoverFilter>>)
      modifies this, getCacheDiscoverMovieFilterUseCase
      ensures getCacheDiscoverMovieFilterUseCase.repositoryCalls == old(getCacheDiscoverMovieFilterUseCase.repositoryCalls) + 1
      ensures reply.Present? && reply.value.Some? ==>
                && discoverFilters == reply.value
                && apiParams == HoldFilterInParams(old(apiParams), apiKey, language, reply.value, sortParam)
                && discoverFiltersErrorState == old(discoverFiltersErrorState)
      ensures reply == Present(None) || reply.Absent? ==>
                && discoverFilters == Some(defaultFilters)
                && apiParams == HoldFilterInParams(old(apiParams), apiKey, language, None, sortParam)
                && discoverFiltersErrorState == old(discoverFiltersErrorState)
      ensures reply.Thrown? ==>
                && discoverFilters == old(discoverFilters)
                && apiParams == old(apiParams)
                && discoverFiltersErrorState == Some(ErrorState(SAVE_TO_PREF_ERROR_DEFAULT))
      ensures !reply.Thrown? ==> HoldsCredentials()
      ensures loadingState == old(loadingState)
      ensures genres == old(genres) && genreErrorState == old(genreErrorState)
      ensures discoverMovies == old(discoverMovies) && discoverMoviesErrorState == old(discoverMoviesErrorState)
    {
      var r := getCacheDiscoverMovieFilterUseCase.Execute(reply);
      match r
      case Present(Some(f)) =>
        discoverFilters := Some(f);
        apiParams := HoldFilterInParams(apiParams, apiKey, language, Some(f), sortParam);
      case Present(None) =>
        discoverFilters := Some(defaultFilters);
        apiParams := HoldFilterInParams(apiParams, apiKey, language, None, sortParam);
      case Absent =>
        discoverFilters := Some(defaultFilters);
        apiParams := HoldFilterInParams(apiParams, apiKey, language, None, sortParam);
      case Thrown =>
        discoverFiltersErrorState := Some(ErrorState(SAVE_TO_PREF_ERROR_DEFAULT));
    }
  }
}
