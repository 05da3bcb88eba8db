/**
 * The request URL that `fetchSearchTopStories` builds by string
 * concatenation (src/App.js:4-10, 29-30): the search term is inserted
 * verbatim, with no percent-encoding, and the page number is rendered the way
 * a JavaScript template literal renders an integer of magnitude below 2^53.
 */
module Url {
  import opened Wrappers

  const PathBase: string := "https://hn.algolia.com/api/v1"
  const PathSearch: string := "/search"
  const ParamsSearch: string := "query="
  const ParamPage: string := "page="
  const ParamHpp: string := "hitsPerPage="
  const DefaultHpp: string := "100"

  // ---------------------------------------------------------------------
  // Decimal rendering of integers (`${page}`)
  // ---------------------------------------------------------------------

  predicate IsDigit(c: char) {
    '0' <= c <= '9'
  }

  predicate AllDigits(s: string) {
    forall i :: 0 <= i < |s| ==> IsDigit(s[i])
  }

  function DigitChar(d: int): (c: char)
    requires 0 <= d < 10
    ensures IsDigit(c) && c as int - '0' as int == d
  {
    "0123456789"[d]
  }

  /** Decimal digits of `n`, most significant first, without leading zeros. */
  function NatToString(n: nat): (s: string)
    ensures |s| >= 1 && AllDigits(s)
    ensures s[0] == '0' ==> n == 0
    decreases n
  {
    if n < 10 then [DigitChar(n)] else NatToString(n / 10) + [DigitChar(n % 10)]
  }

  /** The number an all-digit string denotes. */
  function DigitsValue(s: string): nat
    requires AllDigits(s)
  {
    if s == [] then 0
    else DigitsValue(s[..|s| - 1]) * 10 + (s[|s| - 1] as int - '0' as int)
  }

  /** How a template literal renders an integer below 2^53 in magnitude: a minus sign for negatives. */
  function IntToString(i: int): (s: string)
    ensures |s| >= 1
    ensures s[0] == '-' <==> i < 0
  {
    if i < 0 then "-" + NatToString(-i) else NatToString(i)
  }

  /** Reads back an optionally signed decimal integer; `None` on anything else. */
  function ParseInt(s: string): Option<int> {
    if |s| >= 2 && s[0] == '-' && AllDigits(s[1..]) then Some(-(DigitsValue(s[1..]) as int))
    else if |s| >= 1 && AllDigits(s) then Some(DigitsValue(s))
    else None
  }

  lemma {:induction false} NatToStringRoundTrip(n: nat)
    ensures DigitsValue(NatToString(n)) == n
    decreases n
  {
    var s := NatToString(n);
    if n >= 10 {
      NatToStringRoundTrip(n / 10);
      assert s[..|s| - 1] == NatToString(n / 10);
    }
  }

  lemma IntToStringRoundTrip(i: int)
    ensures ParseInt(IntToString(i)) == Some(i)
  {
    var s := IntToString(i);
    if i < 0 {
      assert s[1..] == NatToString(-i);
      NatToStringRoundTrip(-i);
      assert ParseInt(s) == Some(-(DigitsValue(s[1..]) as int));
    } else {
      NatToStringRoundTrip(i);
      assert s[0] != '-';
      assert ParseInt(s) == Some(DigitsValue(s) as int);
    }
  }

  lemma IntToStringHasNoAmpersand(i: int)
    ensures '&' !in IntToString(i)
  {
    var s := IntToString(i);
    if i < 0 {
      assert s[1..] == NatToString(-i);
      assert forall k :: 1 <= k < |s| ==> s[k] == s[1..][k - 1];
    }
  }

  // ---------------------------------------------------------------------
  // The search URL
  // ---------------------------------------------------------------------

  /** Everything before the term: base, path and the `query=` parameter name. */
  function Prefix(): string {
    PathBase + PathSearch + "?" + ParamsSearch
  }

  /** Everything after the page number: the fixed page size. */
  function Suffix(): string {
    "&" + ParamHpp + DefaultHpp
  }

  /** The URL requested for `term` and `page` (src/App.js:30). */
  function SearchUrl(term: string, page: int): string
  {
    PathBase + PathSearch + "?" + ParamsSearch + term + "&" + ParamPage + IntToString(page)
      + "&" + ParamHpp + DefaultHpp
  }

  /** Index of the last occurrence of `c` in `s`. */
  function LastIndexOf(s: string, c: char): (r: Option<nat>)
    ensures r.None? <==> c !in s
    ensures r.Some? ==> r.value < |s| && s[r.value] == c
                        && forall j :: r.value < j < |s| ==> s[j] != c
  {
    if s == [] then None
    else if s[|s| - 1] == c then Some(|s| - 1)
    else
      var r := LastIndexOf(s[..|s| - 1], c);
      assert forall j :: 0 <= j < |s| - 1 ==> s[..|s| - 1][j] == s[j];
      r
  }

  /** The part of `url` strictly between prefix `p` and suffix `q`, if it has both. */
  function StripAffixes(url: string, p: string, q: string): Option<string> {
    if |url| < |p| + |q| || url[..|p|] != p || url[|url| - |q|..] != q then None
    else Some(url[|p|..|url| - |q|])
  }

  /**
   * Splits `term&page=N` into term and page. The term is not escaped and may
   * itself hold '&', but a rendered page number never does, so the last '&'
   * marks where the term ends.
   */
  function SplitTermAndPage(mid: string): Option<(string, int)> {
    match LastIndexOf(mid, '&')
    case None => None
    case Some(i) =>
      var tail := mid[i + 1..];
      if |tail| < |ParamPage| || tail[..|ParamPage|] != ParamPage then None
      else
        match ParseInt(tail[|ParamPage|..])
        case None => None
        case Some(page) => Some((mid[..i], page))
  }

  /** Recovers term and page from a URL of the form `SearchUrl` builds. */
  function ParseSearchUrl(url: string): Option<(string, int)> {
    match StripAffixes(url, Prefix(), Suffix())
    case None => None
    case Some(mid) => SplitTermAndPage(mid)
  }

  lemma StripAffixesRoundTrip(p: string, mid: string, q: string)
    ensures StripAffixes(p + mid + q, p, q) == Some(mid)
  {
    var url := p + mid + q;
    assert url[..|p|] == p;
    assert url[|url| - |q|..] == q;
    assert url[|p|..|url| - |q|] == mid;
  }

  lemma SplitTermAndPageRoundTrip(term: string, page: int)
    ensures SplitTermAndPage(term + "&" + ParamPage + IntToString(page)) == Some((term, page))
  {
    var n := IntToString(page);
    var mid := term + "&" + ParamPage + n;
    IntToStringHasNoAmpersand(page);
    assert forall j :: |term| < j < |mid| ==> mid[j] != '&' by {
      forall j | |term| < j < |mid| ensures mid[j] != '&' {
        if j >= |term| + 1 + |ParamPage| {
          assert mid[j] == n[j - |term| - 1 - |ParamPage|];
        }
      }
    }
    assert mid[|term|] == '&';
    assert LastIndexOf(mid, '&') == Some(|term|);
    var tail := mid[|term| + 1..];
    assert tail == ParamPage + n;
    assert tail[|ParamPage|..] == n;
    IntToStringRoundTrip(page);
    assert mid[..|term|] == term;
  }

  /** The URL carries the exact term and page it was built from. */
  lemma SearchUrlRoundTrip(term: string, page: int)
    ensures ParseSearchUrl(SearchUrl(term, page)) == Some((term, page))
  {
    var mid := term + "&" + ParamPage + IntToString(page);
    assert SearchUrl(term, page) == Prefix() + mid + Suffix();
    StripAffixesRoundTrip(Prefix(), mid, Suffix());
    SplitTermAndPageRoundTrip(term, page);
  }

  /** The first request on mount, written out. */
  lemma FirstRequestUrl()
    ensures SearchUrl("redux", 0) == "https://hn.algolia.com/api/v1/search?query=redux&page=0&hitsPerPage=100"
  {
    assert IntToString(0) == "0";
    assert Prefix() == "https://hn.algolia.com/api/v1/search?query=";
    assert Suffix() == "&hitsPerPage=100";
    assert SearchUrl("redux", 0) == Prefix() + "redux" + "&" + ParamPage + "0" + Suffix();
  }

  /** Distinct requests never share a URL, even though the term is not escaped. */
  lemma SearchUrlInjective(t1: string, p1: int, t2: string, p2: int)
    requires SearchUrl(t1, p1) == SearchUrl(t2, p2)
    ensures t1 == t2 && p1 == p2
  {
    SearchUrlRoundTrip(t1, p1);
    SearchUrlRoundTrip(t2, p2);
  }
}
