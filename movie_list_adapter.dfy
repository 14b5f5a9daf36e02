/**
 * The movie list adapter of the home screen: a mutable list of movies shown
 * as rows, followed by two loader rows when paging is enabled. Binding the
 * first loader row asks the paging helper for the next page; binding a
 * loader row once no more data is available collapses it.
 */
module Home {
  import opened Wrappers
  import opened Constants
  import opened Entity

  const MOVIE_ENTITY: int := 1
  const LOADER_VIEW: int := 2

  /** Number of rows: every movie, plus the two loader rows when paging is on. */
  function ItemCount(movieCount: nat, pagingEnabled: bool): nat {
    if pagingEnabled then movieCount + 2 else movieCount
  }

  /** The view type of a row: a loader for any position past the last movie. */
  function ItemViewType(position: int, movieCount: nat): (t: int)
    ensures t == MOVIE_ENTITY || t == LOADER_VIEW
    ensures t == LOADER_VIEW <==> position >= movieCount
  {
    if position > movieCount - 1 then LOADER_VIEW else MOVIE_ENTITY
  }

  /** Which rows among the item count are loaders, with paging on and off. */
  lemma LoaderRows(movieCount: nat, pagingEnabled: bool, position: int)
    requires 0 <= position < ItemCount(movieCount, pagingEnabled)
    ensures ItemViewType(position, movieCount) == LOADER_VIEW <==>
              pagingEnabled && (position == movieCount || position == movieCount + 1)
    ensures ItemViewType(position, movieCount) == MOVIE_ENTITY <==> position < movieCount
  {
  }

  /** The loader rows are exactly the two positions after the last movie. */
  lemma ItemCountCountsLoaders(movieCount: nat, pagingEnabled: bool)
    ensures ItemCount(movieCount, pagingEnabled) - movieCount ==
              |set p | 0 <= p < ItemCount(movieCount, pagingEnabled)
                       && ItemViewType(p, movieCount) == LOADER_VIEW|
  {
    var loaders := set p | 0 <= p < ItemCount(movieCount, pagingEnabled)
                           && ItemViewType(p, movieCount) == LOADER_VIEW;
    if pagingEnabled {
      assert loaders == {movieCount, movieCount + 1};
    } else {
      assert loaders == {};
    }
  }

  datatype HolderKind = MovieRow | LoaderRow

  /** onCreateViewHolder's choice of layout, or the error for an unknown type. */
  function HolderKindOf(viewType: int): (r: Result<HolderKind, string>)
    ensures r == Success(MovieRow) <==> viewType == MOVIE_ENTITY
    ensures r == Success(LoaderRow) <==> viewType == LOADER_VIEW
    ensures r.Failure? <==> viewType != MOVIE_ENTITY && viewType != LOADER_VIEW
    ensures r.Failure? ==> r.error == INVALID_VIEW_HOLDER
  {
    if viewType == MOVIE_ENTITY then Success(MovieRow)
    else if viewType == LOADER_VIEW then Success(LoaderRow)
    else Failure(INVALID_VIEW_HOLDER)
  }

  /** Every view type the adapter reports can be created, and it is the matching layout. */
  lemma ReportedViewTypesAreCreatable(position: int, movieCount: nat)
    ensures HolderKindOf(ItemViewType(position, movieCount)).Success?
    ensures HolderKindOf(ItemViewType(position, movieCount)).value == LoaderRow <==> position >= movieCount
  {
  }

  /** What binding a loader row does. */
  datatype LoaderAction = LoaderAction(collapse: bool, fetchNextPage: bool)

  /**
   * The loader row collapses when no more data is available; it fetches the
   * next page when more data is available and it is the first loader row.
   */
  function LoaderBinding(hasMoreData: bool, position: int, movieCount: nat): (a: LoaderAction)
    ensures a.collapse <==> !hasMoreData
    ensures a.fetchNextPage <==> hasMoreData && position == movieCount
    ensures !(a.collapse && a.fetchNextPage)
  {
    LoaderAction(!hasMoreData, hasMoreData && position == movieCount)
  }

  /**
   * A fetch is triggered from one position only, the first loader row; the
   * second loader row never fetches.
   */
  lemma OnlyFirstLoaderFetches(hasMoreData: bool, movieCount: nat, p: int, q: int)
    ensures LoaderBinding(hasMoreData, p, movieCount).fetchNextPage ==>
              ItemViewType(p, movieCount) == LOADER_VIEW && p == movieCount
    ensures (LoaderBinding(hasMoreData, p, movieCount).fetchNextPage &&
             LoaderBinding(hasMoreData, q, movieCount).fetchNextPage) ==> p == q
    ensures !LoaderBinding(hasMoreData, movieCount + 1, movieCount).fetchNextPage
  {
  }

  /** A notifyItemRangeChanged(start, count) call. */
  datatype RangeNotice = RangeNotice(start: int, count: int)

  /** A notice covers exactly the rows start .. start + count - 1. */
  predicate Covers(n: RangeNotice, position: int) {
    n.start <= position < n.start + n.count
  }

  /** The notice hideLoaders sends covers exactly the two loader rows. */
  lemma HideNoticeCoversLoaders(movieCount: nat, position: int)
    ensures Covers(RangeNotice(movieCount, 2), position) <==>
              0 <= position < ItemCount(movieCount, true)
              && ItemViewType(position, movieCount) == LOADER_VIEW
  {
  }

  /**
   * After appending, every old row still shows its movie and the notice
   * sent covers exactly the new movie rows.
   */
  lemma AppendKeepsOldRows(before: seq<MovieEntity>, added: seq<MovieEntity>, position: int)
    ensures 0 <= position < |before| ==>
              ItemViewType(position, |before + added|) == MOVIE_ENTITY
              && (before + added)[position] == before[position]
    ensures Covers(RangeNotice(|before|, |added|), position) <==>
              |before| <= position < |before + added|
  {
  }

  /**
   * The paging controller the adapter talks to. Its page counter and
   * exhaustion logic are not part of this model: hasMoreData is an input
   * and every loadNextPage call is counted.
   */
  class PagingHelper {
    var moreData: bool
    var loadNextPageCalls: nat

    constructor (moreData: bool)
      ensures this.moreData == moreData && loadNextPageCalls == 0
    {
      this.moreData := moreData;
      loadNextPageCalls := 0;
    }

    function HasMoreData(): bool
      reads this
    {
      moreData
    }

    method LoadNextPage()
      modifies this
      ensures moreData == old(moreData)
      ensures loadNextPageCalls == old(loadNextPageCalls) + 1
    {
      loadNextPageCalls := loadNextPageCalls + 1;
    }
  }

  /**
   * A row's view holder: it holds a movie binding or a loader binding,
   * whichever layout it was created for.
   */
  class ViewHolder {
    const kind: HolderKind
    /** The movie shown by a movie binding. */
    var movie: Option<MovieEntity>
    /** A loader binding whose height is 0 and whose progress bar is gone. */
    var collapsed: bool

    constructor (kind: HolderKind)
      ensures this.kind == kind && movie == None && !collapsed
    {
      this.kind := kind;
      movie := None;
      collapsed := false;
    }
  }

  /** The exceptions binding can raise. */
  datatype BindError = IndexOutOfBounds | NullPagingHelper

  /**
   * A Kotlin MutableList<MovieEntity>: an object, so the adapter and its
   * caller share one list and an append through either is seen by both.
   */
  class MovieList {
    var items: seq<MovieEntity>

    constructor (items: seq<MovieEntity>)
      ensures this.items == items
    {
      this.items := items;
    }
  }

  class MovieListAdapter {
    /** The caller's list, kept by reference. */
    const movies: MovieList
    const pagingEnabled: bool
    const pagingHelper: PagingHelper?
    /** Every notifyItemRangeChanged call, oldest first. */
    var notices: seq<RangeNotice>

    constructor (movies: MovieList, pagingEnabled: bool, pagingHelper: PagingHelper?)
      ensures this.movies == movies && this.pagingEnabled == pagingEnabled
      ensures this.pagingHelper == pagingHelper && notices == []
    {
      this.movies := movies;
      this.pagingEnabled := pagingEnabled;
      this.pagingHelper := pagingHelper;
      notices := [];
    }

    function GetItemCount(): (n: nat)
      reads this, movies
      ensures n == ItemCount(|movies.items|, pagingEnabled)
    {
      ItemCount(|movies.items|, pagingEnabled)
    }

    function GetItemViewType(position: int): (t: int)
      reads this, movies
      ensures t == ItemViewType(position, |movies.items|)
    {
      ItemViewType(position, |movies.items|)
    }

    method OnCreateViewHolder(viewType: int) returns (r: Result<ViewHolder, string>)
      ensures HolderKindOf(viewType).Failure? ==> r == Failure(INVALID_VIEW_HOLDER)
      ensures HolderKindOf(viewType).Success? ==>
                r.Success? && fresh(r.value) && r.value.kind == HolderKindOf(viewType).value
                && r.value.movie == None && !r.value.collapsed
    {
      if viewType == MOVIE_ENTITY {
        var holder := new ViewHolder(MovieRow);
        r := Success(holder);
      } else if viewType == LOADER_VIEW {
        var holder := new ViewHolder(LoaderRow);
        r := Success(holder);
      } else {
        r := Failure(INVALID_VIEW_HOLDER);
      }
    }

    /**
     * A movie row shows the movie at its position (an index outside the
     * list raises); a loader row needs the paging helper, collapses when no
     * more data is available and fetches the next page from the first
     * loader row only.
     */
    method OnBindViewHolder(holder: ViewHolder, position: int) returns (r: Option<BindError>)
      modifies holder, pagingHelper
      ensures movies.items == old(movies.items) && notices == old(notices)
      ensures holder.kind == MovieRow ==>
                && holder.collapsed == old(holder.collapsed)
                && (pagingHelper != null ==> unchanged(pagingHelper))
                && (if 0 <= position < |movies.items|
                    then r == None && holder.movie == Some(movies.items[position])
                    else r == Some(IndexOutOfBounds) && holder.movie == old(holder.movie))
      ensures holder.kind == LoaderRow && pagingHelper == null ==>
                r == Some(NullPagingHelper) && unchanged(holder)
      ensures holder.kind == LoaderRow && pagingHelper != null ==>
                var action := LoaderBinding(old(pagingHelper.moreData), position, |movies.items|);
                && r == None
                && holder.movie == old(holder.movie)
                && holder.collapsed == (old(holder.collapsed) || action.collapse)
                && pagingHelper.moreData == old(pagingHelper.moreData)
                && pagingHelper.loadNextPageCalls ==
                     old(pagingHelper.loadNextPageCalls) + (if action.fetchNextPage then 1 else 0)
    {
      r := None;
      if holder.kind == MovieRow {
        if 0 <= position < |movies.items| {
          holder.movie := Some(movies.items[position]);
        } else {
          r := Some(IndexOutOfBounds);
        }
      } else {
        if pagingHelper == null {
          r := Some(NullPagingHelper);
          return;
        }
        if !pagingHelper.HasMoreData() {
          holder.collapsed := true;
        }
        if pagingHelper.HasMoreData() && position == |movies.items| {
          pagingHelper.LoadNextPage();
        }
      }
    }

    /**
     * Appends in place to the shared list, then notifies from the old size
     * for as many rows as the entities list holds after the append. When
     * the entities list is the adapter's own list, the append doubles it
     * and the notice covers twice the old size.
     */
    method AddMoreMovies(entities: MovieList)
      modifies this, movies
      ensures movies.items == old(movies.items) + old(entities.items)
      ensures movies.items[..|old(movies.items)|] == old(movies.items)
      ensures entities != movies ==> entities.items == old(entities.items)
      ensures notices == old(notices) + [RangeNotice(|old(movies.items)|, |entities.items|)]
    {
      var notifyStartIndex := |movies.items|;
      movies.items := movies.items + entities.items;
      notices := notices + [RangeNotice(notifyStartIndex, |entities.items|)];
    }

    /** Notifies the two trailing loader rows; the list does not change. */
    method HideLoaders()
      modifies this
      ensures movies.items == old(movies.items)
      ensures notices == old(notices) + [RangeNotice(|movies.items|, 2)]
    {
      notices := notices + [RangeNotice(|movies.items|, 2)];
    }
  }

  /**
   * A client of the adapter: three movies with paging on, so rows 3 and 4
   * are loaders; binding row 3 fetches, binding row 4 does not, and once
   * the helper reports no more data a loader row collapses.
   */
  method PagingScenario(a: MovieEntity, b: MovieEntity, c: MovieEntity)
  {
    var helper := new PagingHelper(true);
    var list := new MovieList([a, b, c]);
    var adapter := new MovieListAdapter(list, true, helper);
    assert adapter.GetItemCount() == 5;
    assert adapter.GetItemViewType(2) == MOVIE_ENTITY;
    assert adapter.GetItemViewType(3) == LOADER_VIEW;

    var created := adapter.OnCreateViewHolder(adapter.GetItemViewType(3));
    assert created.Success?;
    var loader := created.value;
    var err := adapter.OnBindViewHolder(loader, 3);
    assert err == None && helper.loadNextPageCalls == 1 && !loader.collapsed;
    err := adapter.OnBindViewHolder(loader, 4);
    assert helper.loadNextPageCalls == 1;

    helper.moreData := false;
    err := adapter.OnBindViewHolder(loader, 3);
    assert loader.collapsed && helper.loadNextPageCalls == 1;

    var bad := adapter.OnCreateViewHolder(7);
    assert bad == Failure(INVALID_VIEW_HOLDER);

    var more := new MovieList([c]);
    adapter.AddMoreMovies(more);
    assert adapter.notices == [RangeNotice(3, 1)];
    assert list.items == [a, b, c, c];
    assert adapter.GetItemViewType(3) == MOVIE_ENTITY;
    adapter.HideLoaders();
    assert adapter.notices[1] == RangeNotice(4, 2);
  }

  /**
   * Appending the adapter's own list: the caller's list is the same object,
   * so it doubles, and the notice counts the doubled size.
   */
  method SelfAppendScenario(a: MovieEntity, b: MovieEntity)
  {
    var list := new MovieList([a, b]);
    var adapter := new MovieListAdapter(list, false, null);
    adapter.AddMoreMovies(list);
    assert list.items == [a, b, a, b];
    assert adapter.notices == [RangeNotice(2, 4)];
  }
}
