/**
 * The `App` component's state and the handlers that update it
 * (src/App.js:12-118). A completed fetch is a call to `SetSearchTopStories`
 * with whatever hits and page number the response carried; issuing a fetch is
 * returning the URL that `fetchSearchTopStories` would request.
 */
module SearchApp {
  import opened Wrappers
  import opened Cache
  import opened Url

  /** The term searched on mount (src/App.js:4). */
  const DefaultQuery: string := "redux"

  class App {
    var results: Results
    /** The key whose entry is displayed and that responses are merged under. */
    var searchKey: string
    /** The text-box value. */
    var searchTerm: string
    /** The keys for which a response has been merged. */
    ghost var fetched: set<string>

    /** The cache holds exactly one entry per key a response was merged under, and is `null` until the first. */
    ghost predicate Valid()
      reads this
    {
      && Keys(results) == fetched
      && (results.Some? ==> results.value != map[])
    }

    /** The page number shown and used by "More" (src/App.js:78-82). */
    function Page(): int
      reads this
    {
      CurrentPage(results, searchKey)
    }

    /** The hits shown (src/App.js:83-87). */
    function List(): seq<Item>
      reads this
    {
      CurrentList(results, searchKey)
    }

    constructor ()
      ensures Valid()
      ensures results == None && searchKey == "" && searchTerm == DefaultQuery
      ensures fetched == {}
      ensures Page() == 0 && List() == []
    {
      results := None;
      searchKey := "";
      searchTerm := DefaultQuery;
      fetched := {};
    }

    /** Shows the text-box term and requests its first page (src/App.js:113-117). */
    method ComponentDidMount() returns (url: string)
      requires Valid()
      modifies this`searchKey
      ensures Valid()
      ensures searchKey == searchTerm
      ensures List() == CurrentList(results, searchTerm) && Page() == CurrentPage(results, searchTerm)
      ensures url == SearchUrl(searchTerm, 0)
    {
      searchKey := searchTerm;
      url := SearchUrl(searchTerm, 0);
    }

    /** Records the text-box value and nothing else (src/App.js:53-55). */
    method OnSearchChange(value: string)
      requires Valid()
      modifies this`searchTerm
      ensures Valid()
      ensures searchTerm == value
    {
      searchTerm := value;
    }

    /**
     * Displays the typed term and always requests its page 0, whether or not
     * it is cached already (src/App.js:57-62).
     */
    method OnSearchSubmit() returns (url: string)
      requires Valid()
      modifies this`searchKey
      ensures Valid()
      ensures searchKey == searchTerm
      ensures List() == CurrentList(results, searchTerm) && Page() == CurrentPage(results, searchTerm)
      ensures url == SearchUrl(searchTerm, 0)
    {
      searchKey := searchTerm;
      url := SearchUrl(searchTerm, 0);
    }

    /**
     * Applies a response under the CURRENT search key, whatever term the
     * request was issued for (src/App.js:40-51).
     */
    method SetSearchTopStories(hits: seq<Item>, page: int)
      requires Valid()
      modifies this`results, this`fetched
      ensures Valid()
      ensures results == Some(Merge(old(results), searchKey, hits, page))
      ensures fetched == old(fetched) + {searchKey}
      ensures List() == old(List()) + hits && Page() == page
      ensures forall k :: k in old(Keys(results)) && k != searchKey ==> results.value[k] == old(results).value[k]
    {
      results := Some(Merge(results, searchKey, hits, page));
      fetched := fetched + {searchKey};
      MergeView(old(results), searchKey, hits, page);
    }

    /**
     * Removes every displayed hit with `id` (src/App.js:64-73). The source
     * destructures `results[searchKey]`, so an entry must be displayed; the
     * Dismiss buttons exist only for rows of that entry.
     */
    method OnDismiss(id: string)
      requires Valid() && searchKey in Keys(results)
      modifies this`results
      ensures Valid()
      ensures results == Some(Dismiss(old(results), searchKey, id))
      ensures List() == WithoutId(old(List()), id) && Page() == old(Page())
      ensures forall x :: x in List() ==> x.objectID != id
    {
      results := Some(Dismiss(results, searchKey, id));
      DismissView(old(results), searchKey, id);
    }

    /** The request of the "More" button: the next page of the displayed key (src/App.js:105). */
    method OnMore() returns (url: string)
      ensures url == SearchUrl(searchKey, Page() + 1)
      ensures ParseSearchUrl(url) == Some((searchKey, Page() + 1))
    {
      url := SearchUrl(searchKey, Page() + 1);
      SearchUrlRoundTrip(searchKey, Page() + 1);
    }
  }

  // ---------------------------------------------------------------------
  // Client scenarios: what a caller of `App` can rely on from the
  // contracts above alone.
  // ---------------------------------------------------------------------

  /** Mount requests page 0 of "redux"; its response is then displayed. */
  method MountAndLoad(hits: seq<Item>, page: int) returns (url: string, list: seq<Item>, shown: int)
    ensures url == "https://hn.algolia.com/api/v1/search?query=redux&page=0&hitsPerPage=100"
    ensures list == hits && shown == page
  {
    var app := new App();
    url := app.ComponentDidMount();
    FirstRequestUrl();
    assert app.List() == [];
    app.SetSearchTopStories(hits, page);
    assert [] + hits == hits;
    list, shown := app.List(), app.Page();
  }

  /**
   * "More" after page 0 requests page 1, and its hits are appended after
   * the first page's.
   */
  method LoadMore(first: seq<Item>, second: seq<Item>) returns (url: string, list: seq<Item>, shown: int)
    ensures ParseSearchUrl(url) == Some((DefaultQuery, 1))
    ensures list == first + second && shown == 1
  {
    var app := new App();
    var _ := app.ComponentDidMount();
    assert app.List() == [];
    app.SetSearchTopStories(first, 0);
    assert [] + first == first;
    assert app.searchKey == DefaultQuery && app.Page() == 0;
    url := app.OnMore();
    app.SetSearchTopStories(second, 1);
    list, shown := app.List(), app.Page();
  }

  /**
   * Submitting the cached term again fetches page 0 again, and the repeated
   * response is appended: the hits appear twice.
   */
  method ResubmitCachedTerm(hits: seq<Item>) returns (url: string, list: seq<Item>)
    ensures url == SearchUrl(DefaultQuery, 0)
    ensures list == hits + hits
  {
    var app := new App();
    var _ := app.ComponentDidMount();
    assert app.List() == [];
    app.SetSearchTopStories(hits, 0);
    assert [] + hits == hits;
    url := app.OnSearchSubmit();
    app.SetSearchTopStories(hits, 0);
    list := app.List();
  }

  /**
   * A response for "redux" that arrives after the user has submitted "vue"
   * is stored under "vue": the merge uses the key current when it is
   * applied, not the term the request was made for.
   */
  method StaleResponse(hits: seq<Item>) returns (underVue: seq<Item>, underRedux: Option<Entry>)
    ensures underVue == hits
    ensures underRedux == None
  {
    var app := new App();
    var _ := app.ComponentDidMount();
    app.OnSearchChange("vue");
    var _ := app.OnSearchSubmit();
    app.SetSearchTopStories(hits, 0);
    underVue := app.List();
    underRedux := Lookup(app.results, DefaultQuery);
  }

  /** Dismissing a hit removes every hit with its id; dismissing it again changes nothing. */
  method DismissTwice(hits: seq<Item>, id: string) returns (once: seq<Item>, twice: seq<Item>)
    ensures once == WithoutId(hits, id) && twice == once
    ensures forall x :: x in once <==> x in hits && x.objectID != id
  {
    var app := new App();
    var _ := app.ComponentDidMount();
    assert app.List() == [];
    app.SetSearchTopStories(hits, 0);
    assert [] + hits == hits;
    app.OnDismiss(id);
    once := app.List();
    app.OnDismiss(id);
    twice := app.List();
    WithoutIdIdempotent(hits, id);
  }
}
