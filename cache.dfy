/**
 * The per-query result cache held in `App.state.results` (src/App.js:16-20)
 * and the pure expressions that rebuild it: the merge of a fetched page
 * (src/App.js:40-51), the dismissal filter (src/App.js:64-73) and the page
 * and list the view derives from it (src/App.js:77-87).
 *
 * `results` starts as JavaScript `null` and later holds a plain object whose
 * own keys are query strings; here that is `None` or `Some(map)`.
 */
module Cache {
  import opened Wrappers

  /** One search hit as the API returns it. */
  datatype Item = Item(
    objectID: string,
    title: string,
    url: string,
    author: string,
    num_comments: int,
    points: int)

  /** What is stored per query key: every hit merged so far and the last page number merged. */
  datatype Entry = Entry(hits: seq<Item>, page: int)

  type Results = Option<map<string, Entry>>

  /** The keys present in the cache; none while `results` is still `null`. */
  function Keys(results: Results): set<string> {
    if results.None? then {} else results.value.Keys
  }

  /** `results && results[key]`: the entry cached under `key`, if there is one. */
  function Lookup(results: Results, key: string): Option<Entry> {
    if results.Some? && key in results.value then Some(results.value[key]) else None
  }

  // ---------------------------------------------------------------------
  // View data (src/App.js:77-87); the same `|| []` default is the "old hits"
  // of the merge at src/App.js:43.
  // ---------------------------------------------------------------------

  /** `(results && results[key] && results[key].page) || 0` */
  function CurrentPage(results: Results, key: string): int {
    match Lookup(results, key)
    case None => 0
    case Some(e) => if e.page != 0 then e.page else 0
  }

  /** `(results && results[key] && results[key].hits) || []` (an array is always truthy). */
  function CurrentList(results: Results, key: string): seq<Item> {
    match Lookup(results, key)
    case None => []
    case Some(e) => e.hits
  }

  /** The view shows the stored entry as it is, and page 0 with no hits when there is none. */
  lemma ViewDefaults(results: Results, key: string)
    ensures key !in Keys(results) ==> CurrentPage(results, key) == 0 && CurrentList(results, key) == []
    ensures key in Keys(results) ==>
              && CurrentPage(results, key) == results.value[key].page
              && CurrentList(results, key) == results.value[key].hits
  {
  }

  // ---------------------------------------------------------------------
  // Merge of a fetched page (src/App.js:40-51)
  // ---------------------------------------------------------------------

  /**
   * The new `results` after a page of `hits` numbered `page` arrives while
   * `key` is the current search key: the page's hits go after whatever was
   * cached under `key`, the page number is overwritten, and every other
   * entry is carried over by the object spread.
   */
  function Merge(results: Results, key: string, hits: seq<Item>, page: int): (m: map<string, Entry>)
    ensures m.Keys == Keys(results) + {key}
    ensures m[key].hits == CurrentList(results, key) + hits
    ensures m[key].page == page
    ensures forall k :: k in Keys(results) && k != key ==> m[k] == results.value[k]
  {
    var base := if results.None? then map[] else results.value;
    base[key := Entry(CurrentList(results, key) + hits, page)]
  }

  /** After a merge the view lists the old hits followed by the new ones and shows the new page. */
  lemma MergeView(results: Results, key: string, hits: seq<Item>, page: int)
    ensures CurrentList(Some(Merge(results, key, hits, page)), key) == CurrentList(results, key) + hits
    ensures CurrentPage(Some(Merge(results, key, hits, page)), key) == page
    ensures forall k :: k != key ==>
              && CurrentList(Some(Merge(results, key, hits, page)), k) == CurrentList(results, k)
              && CurrentPage(Some(Merge(results, key, hits, page)), k) == CurrentPage(results, k)
  {
  }

  /** Two pages merged in turn are one merge of both pages' hits, keeping the later page number. */
  lemma MergeTwice(results: Results, key: string, h1: seq<Item>, p1: int, h2: seq<Item>, p2: int)
    ensures Merge(Some(Merge(results, key, h1, p1)), key, h2, p2) == Merge(results, key, h1 + h2, p2)
  {
    assert (CurrentList(results, key) + h1) + h2 == CurrentList(results, key) + (h1 + h2);
  }

  /** Hits are not deduplicated: a page merged twice appears twice. */
  lemma MergeKeepsDuplicates(results: Results, key: string, hits: seq<Item>, page: int)
    ensures CurrentList(Some(Merge(Some(Merge(results, key, hits, page)), key, hits, page)), key)
            == CurrentList(results, key) + hits + hits
  {
  }

  // ---------------------------------------------------------------------
  // Dismissal (src/App.js:64-73)
  // ---------------------------------------------------------------------

  /** `hits.filter(item => item.objectID !== id)` */
  function WithoutId(hits: seq<Item>, id: string): (r: seq<Item>)
    ensures |r| <= |hits|
    ensures forall x :: x in r <==> x in hits && x.objectID != id
  {
    if hits == [] then []
    else
      var rest := WithoutId(hits[1..], id);
      assert forall x :: x in hits <==> x == hits[0] || x in hits[1..];
      if hits[0].objectID != id then [hits[0]] + rest else rest
  }

  /** Filtering works piecewise, so hits that survive keep their relative order. */
  lemma {:induction false} WithoutIdConcat(a: seq<Item>, b: seq<Item>, id: string)
    ensures WithoutId(a + b, id) == WithoutId(a, id) + WithoutId(b, id)
    decreases |a|
  {
    if a == [] {
      assert a + b == b;
    } else {
      assert (a + b)[0] == a[0];
      assert (a + b)[1..] == a[1..] + b;
      WithoutIdConcat(a[1..], b, id);
    }
  }

  /** Each surviving item occurs exactly as often as before; every item with the id is gone. */
  lemma {:induction false} WithoutIdCount(hits: seq<Item>, id: string, x: Item)
    ensures multiset(WithoutId(hits, id))[x] == if x.objectID == id then 0 else multiset(hits)[x]
    decreases |hits|
  {
    if hits != [] {
      WithoutIdCount(hits[1..], id, x);
      assert hits == [hits[0]] + hits[1..];
    }
  }

  /** A list with no hit carrying the id is left as it is. */
  lemma {:induction false} WithoutIdAbsent(hits: seq<Item>, id: string)
    requires forall i :: 0 <= i < |hits| ==> hits[i].objectID != id
    ensures WithoutId(hits, id) == hits
    decreases |hits|
  {
    if hits != [] {
      WithoutIdAbsent(hits[1..], id);
      assert hits == [hits[0]] + hits[1..];
    }
  }

  /** Dismissing the same id twice is the same as dismissing it once. */
  lemma WithoutIdIdempotent(hits: seq<Item>, id: string)
    ensures WithoutId(WithoutId(hits, id), id) == WithoutId(hits, id)
  {
    var r := WithoutId(hits, id);
    assert forall i :: 0 <= i < |r| ==> r[i] in r;
    WithoutIdAbsent(r, id);
  }

  /**
   * The new `results` after dismissing `id` under `key`. The source
   * destructures `results[key]`, so it needs an entry to be there.
   */
  function Dismiss(results: Results, key: string, id: string): (m: map<string, Entry>)
    requires key in Keys(results)
    ensures m.Keys == results.value.Keys
    ensures m[key].hits == WithoutId(results.value[key].hits, id)
    ensures m[key].page == results.value[key].page
    ensures forall k :: k in m && k != key ==> m[k] == results.value[k]
  {
    var e := results.value[key];
    results.value[key := Entry(WithoutId(e.hits, id), e.page)]
  }

  /** Dismissal is idempotent on the whole cache. */
  lemma DismissIdempotent(results: Results, key: string, id: string)
    requires key in Keys(results)
    ensures Dismiss(Some(Dismiss(results, key, id)), key, id) == Dismiss(results, key, id)
  {
    WithoutIdIdempotent(results.value[key].hits, id);
  }

  /** After a dismissal the view lists no hit with that id, and never more hits than before. */
  lemma DismissView(results: Results, key: string, id: string)
    requires key in Keys(results)
    ensures CurrentList(Some(Dismiss(results, key, id)), key) == WithoutId(CurrentList(results, key), id)
    ensures forall x :: x in CurrentList(Some(Dismiss(results, key, id)), key) ==> x.objectID != id
    ensures |CurrentList(Some(Dismiss(results, key, id)), key)| <= |CurrentList(results, key)|
    ensures CurrentPage(Some(Dismiss(results, key, id)), key) == CurrentPage(results, key)
  {
  }

  /**
   * A dismissal is not remembered: a later page that carries the dismissed
   * id again puts that hit back in the list.
   */
  lemma DismissedHitReturnsOnMerge(results: Results, key: string, id: string, hits: seq<Item>, page: int, x: Item)
    requires key in Keys(results)
    requires x in hits && x.objectID == id
    ensures x in CurrentList(Some(Merge(Some(Dismiss(results, key, id)), key, hits, page)), key)
  {
  }

  // ---------------------------------------------------------------------
  // Key lookup as the source writes it
  // ---------------------------------------------------------------------

  /**
   * Names that every plain JavaScript object inherits from `Object.prototype`.
   * `results[key]` finds them even when `key` was never merged.
   */
  const ObjectPrototypeKeys: set<string> := {
    "constructor", "hasOwnProperty", "isPrototypeOf", "propertyIsEnumerable",
    "toLocaleString", "toString", "valueOf", "__proto__",
    "__defineGetter__", "__defineSetter__", "__lookupGetter__", "__lookupSetter__"
  }

  /** What `results[key]` evaluates to on the non-null results object. */
  datatype JsProperty = OwnEntry(entry: Entry) | Inherited | Undefined

  function JsIndex(m: map<string, Entry>, key: string): JsProperty {
    if key in m then OwnEntry(m[key])
    else if key in ObjectPrototypeKeys then Inherited
    else Undefined
  }

  /**
   * The merge of src/App.js:42-50 with JavaScript's property lookup. An
   * inherited member is truthy, its `.hits` is `undefined`, and spreading
   * `undefined` throws a TypeError; the promise chain's `.catch(e => e)`
   * swallows it, so `results` stays as it was. `None` marks that outcome.
   */
  function MergeAsWritten(results: Results, key: string, hits: seq<Item>, page: int): Option<map<string, Entry>> {
    if results.None? then Some(map[key := Entry(hits, page)])
    else
      match JsIndex(results.value, key)
      case OwnEntry(e) => Some(results.value[key := Entry(e.hits + hits, page)])
      case Undefined => Some(results.value[key := Entry(hits, page)])
      case Inherited => None
  }

  /** Wherever the lookup sees only own keys, the code as written is exactly `Merge`. */
  lemma MergeAsWrittenAgrees(results: Results, key: string, hits: seq<Item>, page: int)
    requires results.None? || key in results.value || key !in ObjectPrototypeKeys
    ensures MergeAsWritten(results, key, hits, page) == Some(Merge(results, key, hits, page))
  {
    if results.None? || key !in results.value {
      assert CurrentList(results, key) + hits == hits;
    }
  }

  /**
   * Once any search has been cached, a page fetched for the query
   * "constructor" is lost: the code as written stores nothing, while `Merge`
   * stores the page under that key.
   */
  lemma ConstructorQueryIsLost(cached: Entry, x: Item)
    ensures MergeAsWritten(Some(map["redux" := cached]), "constructor", [x], 0) == None
    ensures CurrentList(Some(Merge(Some(map["redux" := cached]), "constructor", [x], 0)), "constructor") == [x]
  {
    assert "constructor" != "redux";
  }
}
