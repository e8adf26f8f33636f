/**
 * The application shell (src/components/App/App.tsx): which list is being
 * browsed (a search term or the trending list) and which page of it, the
 * cache key and catalog call that follow from that, which parts of the page
 * are shown for a given fetch outcome, and the movie open in the modal.
 *
 * The fetch itself is not modelled: its outcome `(isLoading, error, data)`
 * is an input to the render rules.
 */
module App {
  import opened Wrappers
  import opened Text
  import opened Catalog
  import MovieModal

  // ---------------------------------------------------------------------
  // Query state and its transitions
  // ---------------------------------------------------------------------

  /** `AppQueryState`: a null query means trending mode. The page is a
      JavaScript number that the app never checks; here it is an integer. */
  datatype QueryState = QueryState(query: Option<string>, page: int)

  /** The state the app starts in: trending mode, first page. */
  const Initial := QueryState(None, 1)

  /** The invariant the handlers keep: the query is null, or a non-empty
      string without surrounding whitespace. */
  predicate ValidQuery(s: QueryState)
  {
    match s.query
    case None => true
    case Some(q) => q != [] && IsTrimmed(q)
  }

  /** `isSearching`: a search term is active. */
  predicate IsSearching(s: QueryState)
    ensures IsSearching(s) <==> s.query.Some?
    ensures IsSearching(s) && ValidQuery(s) ==>
      match s.query
      case Some(q) => q != [] && IsTrimmed(q)
      case None => false
  {
    s.query.Some?
  }

  /** `handleSearch(raw)`, its effect on the query state. A blank input is
      rejected and nothing changes; any other input becomes the query,
      without its surrounding whitespace, and the page goes back to 1. */
  function Search(s: QueryState, raw: string): (r: QueryState)
    ensures IsBlank(raw) ==> r == s
    ensures !IsBlank(raw) ==> (
      && r.page == 1 && r.query.Some? && r.query.value != []
      && IsTrimmed(r.query.value)
      && exists lo, hi :: (0 <= lo <= hi <= |raw| && r.query.value == raw[lo..hi]
                          && IsBlank(raw[..lo]) && IsBlank(raw[hi..])))
    ensures ValidQuery(s) ==> ValidQuery(r)
  {
    var q := Trim(raw);
    if q == [] then s else QueryState(Some(q), 1)
  }

  /** `handlePageChange(n)`: the query stays, the page becomes `n`, unchecked. */
  function PageChange(s: QueryState, n: int): (r: QueryState)
    ensures r.query == s.query && r.page == n
    ensures ValidQuery(s) ==> ValidQuery(r)
  {
    s.(page := n)
  }

  /** The user actions that change the query state. */
  datatype Event = Submit(raw: string) | GoToPage(page: int)

  /** Whether `e` fires the "Please enter a search query." toast. */
  predicate Toasts(e: Event)
    ensures Toasts(e) <==> e.Submit? && Trim(e.raw) == []
  {
    e.Submit? && IsBlank(e.raw)
  }

  function Step(s: QueryState, e: Event): QueryState
  {
    match e
    case Submit(raw) => Search(s, raw)
    case GoToPage(n) => PageChange(s, n)
  }

  /** The state after the events `es`, in order, starting from `s`. */
  function Run(s: QueryState, es: seq<Event>): QueryState
  {
    if es == [] then s else Step(Run(s, es[..|es| - 1]), es[|es| - 1])
  }

  /** `e` is a search that goes through: a submission that is not blank. */
  predicate Accepted(e: Event)
  {
    e.Submit? && !IsBlank(e.raw)
  }

  /** No event after position `i` of `es` is a search that goes through. */
  predicate NoSearchAfter(es: seq<Event>, i: int)
  {
    forall j :: 0 <= j && i < j < |es| ==> !Accepted(es[j])
  }

  /** The trimmed text of the last non-blank search in `es`, if any. */
  function LastSearch(es: seq<Event>): (r: Option<string>)
    ensures r.None? <==> NoSearchAfter(es, -1)
    ensures r.Some? ==> exists i :: (
      && 0 <= i < |es| && Accepted(es[i]) && r.value == Trim(es[i].raw) && NoSearchAfter(es, i))
  {
    if es == [] then None
    else
      var e := es[|es| - 1];
      if Accepted(e) then Some(Trim(e.raw))
      else
        var r := LastSearch(es[..|es| - 1]);
        LastSearchExtends(es, r);
        r
  }

  /** The facts `LastSearch` promises carry over from all events but the
      last to all events when the last is not a search that goes through. */
  lemma LastSearchExtends(es: seq<Event>, r: Option<string>)
    requires es != [] && !Accepted(es[|es| - 1])
    requires var p := es[..|es| - 1];
      && (r.None? <==> NoSearchAfter(p, -1))
      && (r.Some? ==> exists i :: (
            && 0 <= i < |p| && Accepted(p[i]) && r.value == Trim(p[i].raw) && NoSearchAfter(p, i)))
    ensures r.None? <==> NoSearchAfter(es, -1)
    ensures r.Some? ==> exists i :: (
      && 0 <= i < |es| && Accepted(es[i]) && r.value == Trim(es[i].raw) && NoSearchAfter(es, i))
  {
    var p := es[..|es| - 1];
    if NoSearchAfter(p, -1) {
      NoSearchAfterExtends(es, -1);
    }
    if NoSearchAfter(es, -1) {
      forall j | 0 <= j < |p| ensures !Accepted(p[j]) {
        assert p[j] == es[j];
      }
    }
    if r.Some? {
      var i :| 0 <= i < |p| && Accepted(p[i]) && r.value == Trim(p[i].raw) && NoSearchAfter(p, i);
      assert es[i] == p[i];
      NoSearchAfterExtends(es, i);
    }
  }

  lemma NoSearchAfterExtends(es: seq<Event>, i: int)
    requires es != [] && !Accepted(es[|es| - 1]) && NoSearchAfter(es[..|es| - 1], i)
    ensures NoSearchAfter(es, i)
  {
    forall j | 0 <= j && i < j < |es| ensures !Accepted(es[j]) {
      if j < |es| - 1 {
        assert es[j] == es[..|es| - 1][j];
      }
    }
  }

  /** Whatever the events, the query invariant holds throughout. */
  lemma {:induction false} RunKeepsValid(s: QueryState, es: seq<Event>)
    requires ValidQuery(s)
    ensures ValidQuery(Run(s, es))
  {
    if es != [] {
      RunKeepsValid(s, es[..|es| - 1]);
    }
  }

  /** The query is always the last non-blank search, trimmed, and stays
      null until there is one; in particular, once a search is active the
      app never returns to trending mode. */
  lemma {:induction false} RunQueryIsLastSearch(s: QueryState, es: seq<Event>)
    ensures Run(s, es).query == (if LastSearch(es).Some? then LastSearch(es) else s.query)
  {
    if es != [] {
      RunQueryIsLastSearch(s, es[..|es| - 1]);
    }
  }

  lemma NeverBackToTrending(s: QueryState, es: seq<Event>)
    requires IsSearching(s)
    ensures IsSearching(Run(s, es))
  {
    RunQueryIsLastSearch(s, es);
  }

  /** From the initial state the app is in trending mode exactly as long as
      every submitted search was blank. */
  lemma TrendingUntilFirstSearch(es: seq<Event>)
    ensures !IsSearching(Run(Initial, es))
      <==> forall i :: 0 <= i < |es| ==> !es[i].Submit? || IsBlank(es[i].raw)
  {
    RunQueryIsLastSearch(Initial, es);
  }

  /** After a non-blank search the page is 1, whatever it was before. */
  lemma SearchResetsPage(s: QueryState, es: seq<Event>, raw: string)
    requires !IsBlank(raw)
    ensures Run(s, es + [Submit(raw)]).page == 1
  {
  }

  /** Submitting "  batman " from any state searches for "batman" from the
      first page, under the key `['searchMovies', 'batman', 1]`. */
  lemma PaddedSearchScenario(s: QueryState)
    ensures Search(s, "  batman ") == QueryState(Some("batman"), 1)
    ensures QueryKey(Search(s, "  batman ")) == [Str("searchMovies"), Str("batman"), Num(1)]
  {
    var raw := "  batman ";
    assert raw[2..8] == "batman";
    assert !IsWhitespace(raw[2]);
    TrimIsUnique(raw, 2, 8);
  }

  /** Submitting only spaces leaves any state exactly as it was. */
  lemma SpacesOnlyScenario(s: QueryState)
    ensures Search(s, "   ") == s && Toasts(Submit("   "))
  {
  }

  // ---------------------------------------------------------------------
  // Cache key and catalog call
  // ---------------------------------------------------------------------

  /** An element of a `useQuery` cache key array. */
  datatype KeyPart = Str(s: string) | Num(n: int)

  /** The catalog call `queryFn` makes. */
  datatype CatalogCall =
    | SearchMovies(query: string, page: int)
    | FetchTrendingMovies(page: int)

  /** `queryKey`: `['searchMovies', query, page]` in search mode and
      `['trendingMovies', page]` in trending mode. */
  function QueryKey(s: QueryState): (key: seq<KeyPart>)
    ensures |key| == (if IsSearching(s) then 3 else 2)
    ensures key[0] == Str(if IsSearching(s) then "searchMovies" else "trendingMovies")
    ensures IsSearching(s) ==> key[1] == Str(s.query.value)
    ensures key[|key| - 1] == Num(s.page)
  {
    match s.query
    case Some(q) => [Str("searchMovies"), Str(q), Num(s.page)]
    case None => [Str("trendingMovies"), Num(s.page)]
  }

  /** `queryFn`: search the catalog in search mode, list trending otherwise,
      always for the current page. */
  function QueryFn(s: QueryState): (call: CatalogCall)
    ensures call.SearchMovies? <==> IsSearching(s)
    ensures call.SearchMovies? ==> call.query == s.query.value
    ensures call.page == s.page
  {
    match s.query
    case Some(q) => SearchMovies(q, s.page)
    case None => FetchTrendingMovies(s.page)
  }

  /** Different states never share a cache entry: the key determines the
      mode, the query and the page. */
  lemma QueryKeyInjective(a: QueryState, b: QueryState)
    requires QueryKey(a) == QueryKey(b)
    ensures a == b
  {
  }

  /** A search key and a trending key never coincide. */
  lemma ModesNeverShareKey(a: QueryState, b: QueryState)
    requires IsSearching(a) && !IsSearching(b)
    ensures QueryKey(a) != QueryKey(b)
  {
    if QueryKey(a) == QueryKey(b) {
      QueryKeyInjective(a, b);
    }
  }

  /** Data cached under a key is always data for the call made under that
      key: equal keys mean equal catalog calls. */
  lemma SameKeySameCall(a: QueryState, b: QueryState)
    requires QueryKey(a) == QueryKey(b)
    ensures QueryFn(a) == QueryFn(b)
  {
    QueryKeyInjective(a, b);
  }

  // ---------------------------------------------------------------------
  // What is shown
  // ---------------------------------------------------------------------

  /** The outcome of the fetch for the current key, as `useQuery` reports
      it; `error` is the truthiness of its error value. */
  datatype FetchOutcome = FetchOutcome(isLoading: bool, error: bool, data: Option<MoviesResponse>)

  /** The page's optional parts. `errorMessage` is the failure message and
      `notFound` the inline "no movies" message, each present when shown. */
  datatype Pager = Pager(totalPages: int, page: int)
  datatype View = View(
    errorMessage: Option<string>,
    loader: bool,
    grid: Option<seq<Movie>>,
    pagination: Option<Pager>,
    notFound: Option<string>,
    modal: Option<Movie>)

  const FailedMessage := "Failed to load movies. Please try again."
  const NotFoundMessage := "No movies found for your search."

  /** `data?.results ?? []` */
  function MoviesOf(f: FetchOutcome): (movies: seq<Movie>)
    ensures f.data.None? ==> movies == []
    ensures f.data.Some? ==> movies == f.data.value.results
  {
    if f.data.Some? then f.data.value.results else []
  }

  /** `data?.total_pages ?? 0` */
  function TotalPagesOf(f: FetchOutcome): (totalPages: int)
    ensures f.data.None? ==> totalPages == 0
    ensures f.data.Some? ==> totalPages == f.data.value.totalPages
  {
    if f.data.Some? then f.data.value.totalPages else 0
  }

  /** The fetch has finished without an error. */
  predicate Settled(f: FetchOutcome)
  {
    !f.isLoading && !f.error
  }

  /** The rendered page for a fetch outcome, query state and selection. */
  function Render(f: FetchOutcome, s: QueryState, selected: Option<Movie>): (v: View)
    ensures v.errorMessage == (if f.error then Some(FailedMessage) else None)
    ensures v.loader <==> f.isLoading
    ensures v.grid.Some? <==> Settled(f) && |MoviesOf(f)| > 0
    ensures v.grid.Some? ==> v.grid.value == MoviesOf(f)
    ensures v.pagination.Some? <==> v.grid.Some? && TotalPagesOf(f) > 1
    ensures v.pagination.Some? ==> v.pagination.value == Pager(TotalPagesOf(f), s.page)
    ensures v.notFound.Some? <==> Settled(f) && |MoviesOf(f)| == 0 && IsSearching(s)
    ensures v.notFound.Some? ==> v.notFound.value == NotFoundMessage
    ensures v.modal == selected
  {
    var movies := MoviesOf(f);
    var totalPages := TotalPagesOf(f);
    var errorMessage := if f.error then FailedMessage else "";
    var showGrid := !f.isLoading && errorMessage == "" && |movies| > 0;
    View(
      if errorMessage != "" then Some(errorMessage) else None,
      f.isLoading,
      if showGrid then Some(movies) else None,
      if showGrid && totalPages > 1 then Some(Pager(totalPages, s.page)) else None,
      if !f.isLoading && errorMessage == "" && |movies| == 0 && IsSearching(s)
        then Some(NotFoundMessage) else None,
      selected)
  }

  /** The render rules never contradict each other: the grid and the
      "no movies" message exclude each other, pagination only comes with
      the grid, the "no movies" message only appears in search mode, and
      neither results nor the message appear while loading or on error. */
  lemma RenderConsistent(f: FetchOutcome, s: QueryState, selected: Option<Movie>)
    ensures var v := Render(f, s, selected);
      && !(v.grid.Some? && v.notFound.Some?)
      && (v.pagination.Some? ==> v.grid.Some?)
      && (v.notFound.Some? ==> IsSearching(s))
      && (v.loader || v.errorMessage.Some? ==>
            v.grid.None? && v.pagination.None? && v.notFound.None?)
  {
  }

  /** In search mode a settled fetch always shows something: the grid or
      the "no movies" message, exactly one of them. */
  lemma SettledSearchShowsOne(f: FetchOutcome, s: QueryState, selected: Option<Movie>)
    requires Settled(f) && IsSearching(s)
    ensures Render(f, s, selected).grid.Some? != Render(f, s, selected).notFound.Some?
  {
  }

  /** With no data yet, nothing from a result page is shown: no grid and no
      pagination. */
  lemma AbsentDataShowsNoResults(f: FetchOutcome, s: QueryState, selected: Option<Movie>)
    requires f.data.None?
    ensures Render(f, s, selected).grid.None? && Render(f, s, selected).pagination.None?
  {
  }

  /** A single page of results never shows pagination. */
  lemma OnePageNoPagination(f: FetchOutcome, s: QueryState, selected: Option<Movie>)
    requires TotalPagesOf(f) <= 1
    ensures Render(f, s, selected).pagination.None?
  {
  }

  // ---------------------------------------------------------------------
  // The component's state
  // ---------------------------------------------------------------------

  /** The `App` component's state: the query state record and the movie
      open in the modal. */
  class AppState {
    var query: Option<string>
    var page: int
    var selected: Option<Movie>

    function State(): QueryState
      reads this
    {
      QueryState(query, page)
    }

    /** The class invariant: the query is null or non-empty and trimmed.
        The constructor establishes it and every method keeps it; no method
        needs it, so none requires it. */
    ghost predicate Valid()
      reads this
    {
      ValidQuery(State())
    }

    /** The initial render: trending mode, page 1, no modal. */
    constructor ()
      ensures State() == Initial && selected == None
      ensures Valid() && !IsSearching(State())
    {
      query := None;
      page := 1;
      selected := None;
    }

    /** `handleSearch(raw)`: a blank input fires one toast and changes
        nothing; otherwise the query becomes the trimmed input and the page
        goes back to 1. */
    method HandleSearch(raw: string) returns (toasted: bool)
      modifies this
      ensures toasted <==> IsBlank(raw)
      ensures toasted == Toasts(Submit(raw))
      ensures State() == Search(old(State()), raw)
      ensures toasted ==> query == old(query) && page == old(page)
      ensures !toasted ==> query == Some(Trim(raw)) && page == 1
      ensures selected == old(selected)
      ensures old(Valid()) ==> Valid()
    {
      if Trim(raw) == [] {
        toasted := true;
        return;
      }
      toasted := false;
      query, page := Some(Trim(raw)), 1;
    }

    /** `handlePageChange(n)`: keep the query, take the page as given. */
    method HandlePageChange(n: int)
      modifies this
      ensures State() == PageChange(old(State()), n)
      ensures query == old(query) && page == n
      ensures selected == old(selected)
      ensures old(Valid()) ==> Valid()
    {
      page := n;
    }

    /** `setSelectedMovie(m)` from the grid: open the modal on `m`. */
    method Select(m: Movie)
      modifies this
      ensures selected == Some(m)
      ensures State() == old(State())
      ensures old(Valid()) ==> Valid()
    {
      selected := Some(m);
    }

    /** The modal's `onClose`: `setSelectedMovie(null)`. */
    method Close()
      modifies this
      ensures selected == None
      ensures State() == old(State())
      ensures old(Valid()) ==> Valid()
    {
      selected := None;
    }

    /** An input to the open modal: it closes exactly when the modal calls
        `onClose`; the query state is untouched either way. */
    method OnModalInput(e: MovieModal.ModalInput)
      modifies this
      ensures selected == if MovieModal.OnCloseCalls(e) == 1 then None else old(selected)
      ensures State() == old(State())
      ensures old(Valid()) ==> Valid()
    {
      if MovieModal.OnCloseCalls(e) == 1 {
        Close();
      }
    }
  }
}
