# Hacker News search client: result cache and state machine

This project models the part of the `App` component in `src/App.js` that holds
state. The component shows Hacker News stories from the Algolia search API and
keeps one cache entry per query (`results`). It also tracks the query being
displayed (`searchKey`) and the text-box value (`searchTerm`). Handlers change
that state: a fetched page is merged into the cache, a row is dismissed, the
text box changes, a search is submitted, and the component mounts. The view
derives the page number and the hit list from the state. Each fetch requests a
URL built by plain string concatenation.

Files:

- `wrappers.dfy`: the `Option` datatype.
- `url.dfy` (module `Url`): the request URL of `fetchSearchTopStories`. The
  page number is rendered as decimal text. A parser recovers the term and the
  page from a URL, so distinct term and page pairs give distinct URLs.
- `cache.dfy` (module `Cache`): items, entries and the cache as values. It
  holds the merge expression, the dismissal filter, the page and list
  defaults of `render`, and the JavaScript property lookup as written.
- `app.dfy` (module `SearchApp`): the class `App`, with the three state fields
  and one method per handler. Each method is specified by the functions of
  `Cache`. Client scenarios follow the class: mount, "More", resubmitting, a
  stale response, and dismissal.

The model is sequential. A completed fetch is a call to
`App.SetSearchTopStories` with any hits and page number. A fetch is issued by
returning the URL that would be requested. The code has no sort order, no
loading or error flag and no check for whether a term is already cached, so the
model has none of them either. Submitting a term always fetches page 0 again,
and that page's hits are appended a second time (`SearchApp.ResubmitCachedTerm`).

## Model

| member | source | states |
|---|---|---|
| `Url.NatToStringRoundTrip` | src/App.js:30 | the decimal digits written for a page number read back as that number |
| `Url.IntToStringRoundTrip` | src/App.js:30 | `${page}` for any integer, negatives included, parses back to the same integer |
| `Url.SearchUrlRoundTrip` | src/App.js:30 | the URL is prefix, then the unescaped term, then `&page=` and the page, then `&hitsPerPage=100`; term and page can be read back exactly |
| `Url.SearchUrlInjective` | src/App.js:30 | two requests with the same URL have the same term and page, even though the term is not escaped |
| `Url.FirstRequestUrl` | src/App.js:4-10 | the mount request for "redux" page 0 is exactly `https://hn.algolia.com/api/v1/search?query=redux&page=0&hitsPerPage=100` |
| `Cache.ViewDefaults` | src/App.js:77-87 | the view shows page 0 and no hits when `results` is null or has no entry for the key; otherwise it shows the entry's page and hits |
| `Cache.Merge` | src/App.js:40-51 | the merged entry holds the old hits (or none) followed by the new hits, in order, and the new page; every other key keeps its entry; no other key is added |
| `Cache.MergeView` | src/App.js:43-48 | after a merge the displayed list is the old list plus the new hits and the page is the new page; every other key displays as before |
| `Cache.MergeTwice` | src/App.js:42-48 | two merges under one key equal one merge of the concatenated hits that keeps the later page number |
| `Cache.MergeKeepsDuplicates` | src/App.js:44 | hits are not deduplicated: merging the same page twice lists its hits twice |
| `Cache.WithoutId` | src/App.js:67 | the filtered list is no longer than the original, and it holds exactly the hits whose `objectID` differs from the id |
| `Cache.WithoutIdConcat` | src/App.js:67 | the filter distributes over concatenation, so the hits it keeps stay in the same relative order |
| `Cache.WithoutIdCount` | src/App.js:67 | every hit whose id differs keeps its exact number of occurrences; hits with the id occur zero times |
| `Cache.WithoutIdAbsent` | src/App.js:67 | when no hit has the id, the filter returns the list unchanged |
| `Cache.WithoutIdIdempotent` | src/App.js:67 | filtering twice by the same id gives the same list as filtering once |
| `Cache.Dismiss` | src/App.js:64-73 | needs an entry under the key; afterwards that entry's hits are filtered by id, its page is unchanged, and the key set and all other entries are unchanged |
| `Cache.DismissIdempotent` | src/App.js:64-73 | dismissing the same id twice gives the same cache as dismissing it once |
| `Cache.DismissView` | src/App.js:66-71 | after a dismissal the displayed list is the filtered old list, no hit has the id, the list is no longer than before, and the page is unchanged |
| `Cache.DismissedHitReturnsOnMerge` | src/App.js:43-44 | dismissals are not remembered: a later page that brings back a dismissed id lists that hit again |
| `Cache.MergeAsWrittenAgrees` | src/App.js:42-50 | when the lookup can only see own keys, the merge as written is exactly `Merge` |
| `Cache.ConstructorQueryIsLost` | src/App.js:43 | once another query is cached, the page fetched for "constructor" is dropped by the code as written but stored by `Merge` |
| `SearchApp.App.constructor` | src/App.js:16-20 | the initial state: `results` is null, `searchKey` is empty, `searchTerm` is "redux", and the view shows page 0 and no hits |
| `SearchApp.App.ComponentDidMount` | src/App.js:113-117 | the displayed key becomes the text-box term; page 0 of that term is requested; the cache and the term are unchanged |
| `SearchApp.App.OnSearchChange` | src/App.js:53-55 | only `searchTerm` changes, and it becomes the new value |
| `SearchApp.App.OnSearchSubmit` | src/App.js:57-62 | the displayed key becomes the text-box term; page 0 is always requested, cached or not; the cache is untouched |
| `SearchApp.App.SetSearchTopStories` | src/App.js:40-51 | the cache becomes the merge under the current key; the displayed list grows by exactly the new hits and shows the new page; other entries, both keys and the term are unchanged; the cache holds exactly the keys a response was merged under |
| `SearchApp.App.OnDismiss` | src/App.js:64-73 | needs a displayed entry; afterwards the cache is the dismissal; the displayed list is the filtered old list with no hit carrying the id; the page and everything else are unchanged |
| `SearchApp.App.OnMore` | src/App.js:105 | "More" requests a URL from which exactly the displayed key and the displayed page plus one are read back |
| `SearchApp.MountAndLoad` | src/App.js:113-117 | mounting requests the "redux" page-0 URL, and the response's hits and page are then displayed as they came |
| `SearchApp.LoadMore` | src/App.js:105 | "More" after page 0 requests a URL that reads back as "redux", page 1; that page's hits are listed after the first page's, and page 1 is shown |
| `SearchApp.ResubmitCachedTerm` | src/App.js:57-61 | resubmitting a cached term requests page 0 again; the repeated response lists every hit twice |
| `SearchApp.StaleResponse` | src/App.js:42-48 | a response for "redux" that arrives after "vue" was submitted is stored under "vue"; "redux" gets no entry |
| `SearchApp.DismissTwice` | src/App.js:64-73 | through the class, a dismissal leaves exactly the hits with a different id, and a second dismissal changes nothing |

## Findings

| source | as written | input that shows it | evidently intended | confidence | as-written member | corrected member |
|---|---|---|---|---|---|---|
| src/App.js:43 | `results[searchKey]` also finds members that plain objects inherit from `Object.prototype`. For such a key, `.hits` is `undefined`, and `[...undefined]` throws a TypeError. The `.catch(e => e)` at line 37 swallows it, so nothing is stored. | The "redux" results are cached; the user submits "constructor"; the response's hits never appear | look up own keys only; the page is stored under "constructor" | high; not executed | `Cache.MergeAsWritten`, `Cache.ConstructorQueryIsLost` | `Cache.Merge` (used by `SearchApp.App.SetSearchTopStories`) |

## Left out

- The network call, `response.json()`, the promise chain, `console.log` and the error-swallowing `.catch` (src/App.js:31-37) are I/O. A completed fetch is an explicit `SetSearchTopStories` call, and issuing one returns its URL.
- Asynchronous interleaving is not modelled. Any response is a merge against whatever `searchKey` holds when it is applied (`SearchApp.StaleResponse`).
- How the search server reads an unescaped term is not modelled. A query-string parser splits at the first '&' and stops at '#', so for terms such as "a&b" or "c#" the server receives a different query than the one typed. `Url.ParseSearchUrl` is the model's own reader, which ends the term at the last '&'.
- React machinery is presentation only: `setState` batching, `bind`, `event.preventDefault`, the `Search`, `Table` and `Button` components, and the CSS import (src/App.js:1-2, 22-26, 88-110, 120-157).
- There is no sort order, loading or error flag, or "needs fetch" guard, because the code has none.
- Items and page numbers are taken as the API's JSON gives them. Missing fields, non-integer page numbers and malformed responses are not modelled.
- `Url.IntToStringRoundTrip`: page numbers are unbounded integers here, while JavaScript numbers are doubles. Above 2^53, JavaScript rounds: `page + 1` (src/App.js:105) can leave the value unchanged, and `${page}` prints the shortest round-tripping digits (2^60 prints as 1152921504606847000). Magnitudes of 10^21 and above print in exponent notation. None of this is captured: `IntToString` writes every exact digit and `SearchApp.App.OnMore` always asks for a larger page.
- Results outside the `Object.prototype` names are modelled as a map. Other JavaScript object quirks, such as the order of keys in the spread copy, are not captured.
