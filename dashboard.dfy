/**
 * The movie dashboard of src/components/Dashboard.tsx: its page state, the
 * fetch of one page of movies, the page count, and the choice of what to show.
 */
module Dashboard {
  import opened Wrappers
  import Pagination

  /** Movies per page on the dashboard. */
  const PageSize := 8

  datatype Movie = Movie(id: string, image: string, title: string, year: Option<string>)

  /**
   * What a fetch of `/api/movies?page=N` produced: the parsed JSON body, or
   * an exception from `fetch` or `res.json()`.
   */
  datatype FetchResult = Body(success: bool, data: seq<Movie>, totalData: int) | Threw

  /** The three things the dashboard can show. */
  datatype View = LoadingView | EmptyView | GridView(movies: seq<Movie>, pager: Pagination.Pager)

  /** `Math.ceil(totalData / 8)`, for a whole-number count. */
  function TotalPages(totalData: int): (n: int)
    // the least n with 8 * n >= totalData
    ensures PageSize * n >= totalData
    ensures PageSize * (n - 1) < totalData
  {
    (totalData + PageSize - 1) / PageSize
  }

  /** No fewer pages hold all the movies. */
  lemma TotalPagesIsLeast(totalData: int, k: int)
    requires PageSize * k >= totalData
    ensures TotalPages(totalData) <= k
  {
  }

  /** Seventeen movies fill three pages; none fill none. */
  lemma TotalPagesExamples()
    ensures TotalPages(0) == 0 && TotalPages(8) == 1 && TotalPages(17) == 3
  {
  }

  /** What the component renders for its state. */
  function SelectView(loading: bool, movies: seq<Movie>, currentPage: int, totalData: int): (v: View)
    ensures v.LoadingView? <==> loading
    ensures v.EmptyView? <==> !loading && movies == []
    ensures v.GridView? ==>
              v.movies == movies && v.pager == Pagination.Render(currentPage, TotalPages(totalData))
  {
    if loading then LoadingView
    else if |movies| == 0 then EmptyView
    else GridView(movies, Pagination.Render(currentPage, TotalPages(totalData)))
  }

  /** Whether a fetch result updates the movies and the total (`data.success`). */
  predicate Accepted(res: FetchResult)
  {
    res.Body? && res.success
  }

  /** The component's state hooks. */
  class DashBoard {
    var currentPage: int
    var totalData: int
    var movies: seq<Movie>
    var loading: bool

    /** The initial state of the four `useState` hooks. */
    constructor ()
      ensures currentPage == 1 && totalData == 0 && movies == [] && loading
    {
      currentPage, totalData, movies, loading := 1, 0, [], true;
    }

    function View(): View
      reads this
    {
      SelectView(loading, movies, currentPage, totalData)
    }

    /** The start of `fetchMovies`: loading is set and the current page is requested. */
    method BeginFetch() returns (page: int)
      modifies this`loading
      ensures loading && page == currentPage
    {
      loading := true;
      page := currentPage;
    }

    /** The end of `fetchMovies`: a successful body replaces movies and total; loading ends whatever happened. */
    method EndFetch(res: FetchResult)
      modifies this`movies, this`totalData, this`loading
      ensures !loading
      ensures Accepted(res) ==> movies == res.data && totalData == res.totalData
      ensures !Accepted(res) ==> movies == old(movies) && totalData == old(totalData)
    {
      if res.Body? && res.success {
        movies := res.data;
        totalData := res.totalData;
      }
      loading := false;
    }

    /** `fetchMovies` as one step; `server` gives the result of fetching each page. */
    method FetchMovies(server: int -> FetchResult) returns (page: int)
      modifies this`movies, this`totalData, this`loading
      ensures page == currentPage
      ensures !loading
      ensures Accepted(server(page)) ==> movies == server(page).data && totalData == server(page).totalData
      ensures !Accepted(server(page)) ==> movies == old(movies) && totalData == old(totalData)
    {
      page := BeginFetch();
      var res := server(page);
      EndFetch(res);
    }

    /**
     * `setCurrentPage`: the effect that depends on `currentPage` runs again
     * only when the page actually changes.
     */
    method HandlePageChange(page: int, server: int -> FetchResult)
      modifies this
      ensures currentPage == page
      ensures page == old(currentPage) ==>
                movies == old(movies) && totalData == old(totalData) && loading == old(loading)
      ensures page != old(currentPage) ==> !loading
      ensures page != old(currentPage) && Accepted(server(page)) ==>
                movies == server(page).data && totalData == server(page).totalData
      ensures page != old(currentPage) && !Accepted(server(page)) ==>
                movies == old(movies) && totalData == old(totalData)
    {
      if page != currentPage {
        currentPage := page;
        var _ := FetchMovies(server);
      }
    }

    /**
     * A click on the pager shown under the grid. A disabled or missing button
     * does nothing; an enabled one moves to the page it requests, which stays
     * in 1..totalPages whenever the current page was.
     */
    method ClickPager(c: Pagination.Click, server: int -> FetchResult)
      requires View().GridView?
      modifies this
      ensures var r := Pagination.Press(old(View()).pager, c);
              && (r.None? ==> currentPage == old(currentPage) && movies == old(movies)
                              && totalData == old(totalData) && loading == old(loading))
              && (r.Some? ==> currentPage == r.value)
              // a click on the current page's own button changes nothing more
              && (r.Some? && r.value == old(currentPage) ==>
                    movies == old(movies) && totalData == old(totalData) && loading == old(loading))
              // a click to another page fetches that page
              && (r.Some? && r.value != old(currentPage) ==> !loading)
              && (r.Some? && r.value != old(currentPage) && Accepted(server(r.value)) ==>
                    movies == server(r.value).data && totalData == server(r.value).totalData)
              && (r.Some? && r.value != old(currentPage) && !Accepted(server(r.value)) ==>
                    movies == old(movies) && totalData == old(totalData))
      ensures Pagination.InRange(old(currentPage), TotalPages(old(totalData))) ==>
                Pagination.InRange(currentPage, TotalPages(old(totalData)))
    {
      var pager := View().pager;
      var r := Pagination.Press(pager, c);
      if Pagination.InRange(currentPage, TotalPages(totalData)) {
        Pagination.PressKeepsPageInRange(currentPage, TotalPages(totalData), c);
      }
      if r.Some? {
        HandlePageChange(r.value, server);
      }
    }
  }

  /** The dashboard as mounted: its initial state, then the first fetch of page 1. */
  method Mount(server: int -> FetchResult) returns (d: DashBoard)
    ensures d.currentPage == 1 && !d.loading
    ensures Accepted(server(1)) ==> d.movies == server(1).data && d.totalData == server(1).totalData
    ensures !Accepted(server(1)) ==> d.movies == [] && d.totalData == 0
  {
    d := new DashBoard();
    var _ := d.FetchMovies(server);
  }
}
