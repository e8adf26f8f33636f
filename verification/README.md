# Movie search app: query state, render rules and detail modal

A model of the two pieces of logic inside a small React movie browser that
talks to the TMDB catalog:

- **App** (`src/components/App/App.tsx`). The app's query state is a record
  `{query, page}`. A null query means trending mode. From it follow the
  `useQuery` cache key and the catalog call. The search and page-change
  handlers rewrite the record. Which parts of the page appear is a pure
  function of the fetch outcome `(isLoading, error, data)`, the state and the
  selected movie. The parts are the error message, the loader, the grid, the
  pagination, the "No movies found" message and the modal. The component
  state is the class `App.AppState`. The handlers are its methods, each proved
  against the pure transition function (`Search`, `PageChange`) that the
  lemmas reason about.
- **MovieModal** (`src/components/MovieModal/MovieModal.tsx`). It models:
  - the three ways the modal asks to be closed (Escape key, click on the
    backdrop itself, close button);
  - the image URL;
  - the effect that sets `body.style.overflow` and registers a keydown
    listener, and its cleanup;
  - the module-level get-or-create of the `modal-root` element.

  The document is the class `MovieModal.Doc`, with fields for the overflow
  style, the keydown listener set and the body's children.

JavaScript's `trim` is modelled in `Text` over the ECMAScript WhiteSpace and
LineTerminator code points. `Text.Trim` is proved to be the unique trimmed
slice with only whitespace around it.

Four behaviours of the code to note:
- The app shows a plain loader while fetching. There is no
  stale-while-revalidate: the grid is hidden while `isLoading`.
- A page change is not checked at all. It is neither restricted to `n >= 1`
  nor skipped when `n` equals the current page.
- Zero search results give an inline message, not a toast.
- Cleanup sets overflow to `"auto"`, not to the value it had before mounting.

Files: `wrappers.dfy` (Option), `text.dfy` (trim), `catalog.dfy` (Movie and
MoviesResponse records), `app.dfy`, `modal.dfy`.

## Model

| member | source | states |
|---|---|---|
| `Text.ContentStart` | src/components/App/App.tsx:43 | the start index `trim` keeps: everything before it is whitespace and the character at it is not |
| `Text.ContentEnd` | src/components/App/App.tsx:43 | the end index `trim` keeps: everything from it on is whitespace and the character before it (if past the start) is not |
| `Text.Trim` | src/components/App/App.tsx:49 | `query.trim()` is trimmed, is empty exactly when the input is all whitespace, and is a slice of the input with only whitespace cut away |
| `Text.TrimIsUnique` | src/components/App/App.tsx:49 | any trimmed slice with only whitespace on both sides is the result of `trim` |
| `Text.TrimmedIsFixed` | src/components/App/App.tsx:49 | trimming an already trimmed string returns it unchanged |
| `Text.TrimIdempotent` | src/components/App/App.tsx:49 | trimming twice is trimming once |
| `App.Search` | src/components/App/App.tsx:42-52 | a blank input leaves the state as it was; any other input becomes the query, stripped of surrounding whitespace and non-empty, with page 1; the query invariant is preserved |
| `App.IsSearching` | src/components/App/App.tsx:26 | search mode is exactly a non-null query; under the query invariant its term is non-empty and trimmed, so `queryState.query!` at line 34 always holds a real search term |
| `App.Toasts` | src/components/App/App.tsx:43-44 | the toast fires exactly for a submission whose `trim()` is the empty string |
| `App.PageChange` | src/components/App/App.tsx:54-58 | the query is kept, the page becomes the given number unchecked, the invariant is preserved |
| `App.LastSearch` | src/components/App/App.tsx:42-52 | there is no last non-blank search exactly when every submitted input was blank; otherwise the result is the trimmed text of a non-blank submission after which every submission was blank |
| `App.RunKeepsValid` | src/components/App/App.tsx:21-24 | after any sequence of searches and page changes the query is null or non-empty and trimmed |
| `App.RunQueryIsLastSearch` | src/components/App/App.tsx:42-58 | the query after any sequence of events is the trimmed text of the last non-blank search, or the starting query when there was none |
| `App.NeverBackToTrending` | src/components/App/App.tsx:48-51 | once a search is active no sequence of events returns the app to trending mode |
| `App.TrendingUntilFirstSearch` | src/components/App/App.tsx:20-26 | from the initial state the app is in trending mode exactly while every submitted search was blank |
| `App.SearchResetsPage` | src/components/App/App.tsx:48-51 | a non-blank search always lands on page 1, whatever the earlier events |
| `App.PaddedSearchScenario` | src/components/App/App.tsx:29-51 | submitting `"  batman "` from any state searches for `"batman"` on page 1 under key `['searchMovies', 'batman', 1]` |
| `App.SpacesOnlyScenario` | src/components/App/App.tsx:43-46 | submitting only spaces fires the toast and changes nothing |
| `App.QueryKey` | src/components/App/App.tsx:29-31 | the key is `searchMovies`, the query and the page in search mode, and `trendingMovies` and the page in trending mode |
| `App.QueryFn` | src/components/App/App.tsx:32-35 | search mode calls `searchMovies(query, page)`, trending mode calls `fetchTrendingMovies(page)` |
| `App.QueryKeyInjective` | src/components/App/App.tsx:28-36 | two states with the same cache key are the same state |
| `App.ModesNeverShareKey` | src/components/App/App.tsx:29-31 | a search key never equals a trending key |
| `App.SameKeySameCall` | src/components/App/App.tsx:28-36 | equal cache keys always come with equal catalog calls, so cached data belongs to its key |
| `App.MoviesOf` | src/components/App/App.tsx:38 | absent data gives no movies; present data gives its results in catalog order |
| `App.TotalPagesOf` | src/components/App/App.tsx:39 | absent data gives 0 pages; present data gives its `total_pages` |
| `App.Render` | src/components/App/App.tsx:38-91 | the error message "Failed to load movies. Please try again." iff error; loader iff loading; grid of the results in catalog order iff settled with results; pagination with total pages and current page iff the grid shows and there are more than one page; the message "No movies found for your search." iff settled, empty and searching; modal iff a movie is selected; absent data counts as no results and 0 pages |
| `App.RenderConsistent` | src/components/App/App.tsx:66-85 | grid and "no movies" never both show; pagination only with the grid; "no movies" only in search mode; nothing from the results while loading or on error |
| `App.SettledSearchShowsOne` | src/components/App/App.tsx:70-85 | in search mode a settled fetch shows exactly one of the grid and the "no movies" message |
| `App.AbsentDataShowsNoResults` | src/components/App/App.tsx:38-39 | with no data neither the grid nor the pagination shows |
| `App.OnePageNoPagination` | src/components/App/App.tsx:73 | with at most one page the pagination never shows |
| `App.AppState.constructor` | src/components/App/App.tsx:20-24 | the app starts in trending mode on page 1 with no movie selected |
| `App.AppState.HandleSearch` | src/components/App/App.tsx:42-52 | returns whether the toast fired (iff the input is blank, the same condition as `Toasts`); the new query state is `Search` of the old one; the selection is untouched; the invariant is kept |
| `App.AppState.HandlePageChange` | src/components/App/App.tsx:54-60 | the new query state is `PageChange` of the old one; the selection is untouched |
| `App.AppState.Select` | src/components/App/App.tsx:72 | selecting a movie opens the modal on it without touching the query state |
| `App.AppState.Close` | src/components/App/App.tsx:87-91 | `onClose` clears the selection without touching the query state |
| `App.AppState.OnModalInput` | src/components/App/App.tsx:87-91 | an input to the modal clears the selection exactly when the modal calls `onClose` |
| `MovieModal.OnCloseCalls` | src/components/MovieModal/MovieModal.tsx:20-53 | `onClose` is called at most once per input: once for the Escape key code and for no other, once for a backdrop click iff its target is the backdrop itself, always once for the close button |
| `MovieModal.Truthy` | src/components/MovieModal/MovieModal.tsx:58 | a nullable path is truthy for `\|\|` exactly when it is not null and renders as a non-empty string |
| `MovieModal.Rendered` | src/components/MovieModal/MovieModal.tsx:58 | the template literal renders a string as itself and null as `"null"` |
| `MovieModal.ShownPath` | src/components/MovieModal/MovieModal.tsx:58 | the backdrop path when it is non-empty, otherwise the poster path |
| `MovieModal.ImageUrl` | src/components/MovieModal/MovieModal.tsx:58 | the URL is the TMDB `original` image base followed by the backdrop path when non-empty, otherwise by the poster path |
| `MovieModal.ImageUrlDeterminedByPath` | src/components/MovieModal/MovieModal.tsx:58 | two movies get the same URL exactly when they show the same path |
| `MovieModal.PosterIgnoredWithBackdrop` | src/components/MovieModal/MovieModal.tsx:58 | with a non-empty backdrop the poster path plays no part in the URL |
| `MovieModal.FindById` | src/components/MovieModal/MovieModal.tsx:11 | the lookup returns the first body child with the id, and returns null exactly when no child has it |
| `MovieModal.FindByIdAppended` | src/components/MovieModal/MovieModal.tsx:13-16 | once the new root is appended with its id, the lookup finds it |
| `MovieModal.Element.constructor` | src/components/MovieModal/MovieModal.tsx:11 | `document.createElement('div')` gives a new element with no id |
| `MovieModal.Doc.InitModalRoot` | src/components/MovieModal/MovieModal.tsx:11-16 | an existing `modal-root` is reused and the body is left alone; otherwise a fresh element gets the id and is appended once; afterwards the lookup finds the root |
| `MovieModal.Doc.Mount` | src/components/MovieModal/MovieModal.tsx:26-27 | overflow becomes `hidden` and one fresh keydown handler is added to the listeners |
| `MovieModal.Doc.Cleanup` | src/components/MovieModal/MovieModal.tsx:29-32 | overflow becomes `auto` and exactly the given handler is removed |
| `MovieModal.Doc.ShowThenDismiss` | src/components/MovieModal/MovieModal.tsx:19-33 | after a mount and its cleanup the listener set is what it was before and overflow is `auto` |

## Left out

- The catalog client (`src/services/movieService.ts`) is not part of this model. It does HTTP calls with a bearer token, logging and rethrowing. The model only names the call `queryFn` would make (`App.CatalogCall`).
- `useQuery` internals are not modelled: caching, deduplication, retries and discarding out-of-order responses. The fetch outcome `(isLoading, error, data)` is an input to `App.Render`. `error` is reduced to its truthiness.
- The order and concurrency of in-flight fetches are not modelled.
- The pagination component (`src/components/ReactPaginate/ReactPaginate.tsx`) is not part of this model. Its props (`pageCount`, `forcePage`, `onPageChange({selected})`) do not match what App passes (`totalPages`, `page`, `onPageChange(number)`). The model takes `handlePageChange` as receiving an integer page, as written, and records the pagination only as the `(totalPages, page)` pair App passes.
- The page is a JavaScript number. The model uses an unbounded integer: fractional, NaN and huge pages are not modelled.
- `toast.error` is modelled only as the `toasted` result. `window.scrollTo` is left out, and so are `createPortal`, the JSX markup and the CSS modules.
- The search bar component is not part of this model. `handleSearch` receives the raw string it submits.
- The movie type (`src/types/movie.ts`) is not part of this model. Both image paths are taken as nullable strings; a null path renders as `"null"` inside the template literal.
- Strings are sequences of Unicode scalar values, while JavaScript strings are UTF-16 code units, so an input holding a lone surrogate cannot be represented. This does not affect `trim`: every whitespace code point it strips lies in the Basic Multilingual Plane.
- `vote_average.toFixed(1)` is floating-point formatting and is not modelled.
- React re-runs the modal's effect whenever `onClose` changes identity, which App's inline arrow function causes on every render. The model provides the two halves, `Doc.Cleanup` followed by `Doc.Mount`, but not React's scheduling of them.
- Keydown dispatch over the listener set is not modelled. A handler's behaviour is `OnCloseCalls(KeyDown(code))`.
- `MovieModal.FindById`: `getElementById` searches the whole document tree; the model looks only at the body's children.
