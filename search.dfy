/** The product search page: matching a query against the built-in catalogue,
    expanding each match into five result cards, and the bounded list of
    recent queries. */
module Search {
  import opened Common
  import opened Strings
  import opened Seqs

  const COPIES: nat := 5
  const HISTORY_MAX: nat := 8

  /** A catalogue entry (the floating-point rating is not modelled). */
  datatype SearchProduct = SearchProduct(
    id: nat, title: string, categoryIcon: string, price: int, originalPrice: int, sales: nat,
    tags: seq<string>, keywords: seq<string>)

  /** `{ ...product, id, uniqueKey }` */
  datatype SearchResult = SearchResult(source: SearchProduct, id: string, uniqueKey: string)

  const CATALOGUE: seq<SearchProduct> := [
    SearchProduct(1, "iPhone 15 Pro Max", "📱", 9999, 10999, 1000, ["热销", "新品"],
                  ["iphone", "苹果", "手机", "15", "pro", "max"]),
    SearchProduct(2, "MacBook Pro M3", "💻", 12999, 13999, 500, ["官方直营"],
                  ["macbook", "苹果", "笔记本", "pro", "m3", "电脑"]),
    SearchProduct(3, "AirPods Pro 2", "🎧", 1899, 2199, 2000, ["无线充电", "降噪"],
                  ["airpods", "苹果", "耳机", "pro", "无线", "降噪"])
  ]

  /** `keywords.some(k => k.toLowerCase().includes(q))` */
  function SomeKeywordContains(keywords: seq<string>, q: string): (r: bool)
    ensures r <==> exists i :: 0 <= i < |keywords| && Contains(ToLower(keywords[i]), q)
  {
    if keywords == [] then false
    else if Contains(ToLower(keywords[0]), q) then true
    else
      var r := SomeKeywordContains(keywords[1..], q);
      assert forall i :: 1 <= i < |keywords| ==> keywords[i] == keywords[1..][i - 1];
      r
  }

  /** The lower-cased title or some lower-cased keyword contains the
      lower-cased query, exactly as typed (it is not trimmed). */
  function Matches(p: SearchProduct, query: string): (r: bool)
    ensures r <==> Contains(ToLower(p.title), ToLower(query))
                   || exists i :: 0 <= i < |p.keywords| && Contains(ToLower(p.keywords[i]), ToLower(query))
    ensures query == "" ==> r
  {
    var q := ToLower(query);
    assert query == "" ==> OccursAt(ToLower(p.title), q, 0);
    Contains(ToLower(p.title), q) || SomeKeywordContains(p.keywords, q)
  }

  /** `${id}-search-${k}` */
  function ResultId(productId: nat, k: nat): string {
    Decimal(productId) + ['-'] + "search" + ['-'] + Decimal(k)
  }

  /** The `k`-th card (from 0) of a matching product. */
  function Card(p: SearchProduct, k: nat, now: nat): (r: SearchResult)
    ensures r.source == p && r.id == ResultId(p.id, k + 1)
  {
    SearchResult(p, ResultId(p.id, k + 1), "search-" + Decimal(p.id) + "-" + Decimal(k + 1) + "-" + Decimal(now))
  }

  function Cards(p: SearchProduct, now: nat): (r: seq<SearchResult>)
    ensures |r| == COPIES && forall k :: 0 <= k < COPIES ==> r[k] == Card(p, k, now)
  {
    seq(COPIES, k requires 0 <= k => Card(p, k, now))
  }

  /** The results for `catalogue`, product by product in catalogue order. */
  function Expand(catalogue: seq<SearchProduct>, query: string, now: nat): (r: seq<SearchResult>)
    ensures |r| <= COPIES * |catalogue|
    ensures query == "" ==> |r| == COPIES * |catalogue|
  {
    if catalogue == [] then []
    else
      var last := catalogue[|catalogue| - 1];
      Expand(catalogue[..|catalogue| - 1], query, now) + (if Matches(last, query) then Cards(last, now) else [])
  }

  /** The loop of `performSearch`: for each product, five cards when it
      matches. */
  method CollectResults(catalogue: seq<SearchProduct>, query: string, now: nat) returns (results: seq<SearchResult>)
    ensures results == Expand(catalogue, query, now)
  {
    results := [];
    var j := 0;
    while j < |catalogue|
      invariant 0 <= j <= |catalogue|
      invariant results == Expand(catalogue[..j], query, now)
    {
      var product := catalogue[j];
      if Matches(product, query) {
        results := AppendCards(results, product, now);
      }
      assert catalogue[..j + 1][..j] == catalogue[..j];
      j := j + 1;
    }
    assert catalogue[..j] == catalogue;
  }

  /** The inner loop of `performSearch`: the five cards of one product. */
  method AppendCards(acc: seq<SearchResult>, product: SearchProduct, now: nat) returns (results: seq<SearchResult>)
    ensures results == acc + Cards(product, now)
  {
    results := acc;
    var i := 0;
    while i < COPIES
      invariant 0 <= i <= COPIES
      invariant results == acc + Cards(product, now)[..i]
    {
      results := results + [Card(product, i, now)];
      i := i + 1;
    }
  }

  /** Five cards per matching product, in catalogue order. */
  lemma {:induction false} ResultCount(catalogue: seq<SearchProduct>, query: string, now: nat)
    ensures |Expand(catalogue, query, now)| == COPIES * |Filter((p: SearchProduct) => Matches(p, query), catalogue)|
  {
    var keep := (p: SearchProduct) => Matches(p, query);
    if catalogue != [] {
      var init := catalogue[..|catalogue| - 1];
      var last := catalogue[|catalogue| - 1];
      ResultCount(init, query, now);
      assert catalogue == init + [last];
      FilterAppend(keep, init, [last]);
      assert Filter(keep, [last]) == if keep(last) then [last] else [];
    }
  }

  /** The built-in catalogue never yields more than fifteen cards. */
  lemma CatalogueResultsBounded(query: string, now: nat)
    ensures |Expand(CATALOGUE, query, now)| <= 15
  {
    ResultCount(CATALOGUE, query, now);
  }

  /** When every product matches, every product gives its five cards. */
  lemma AllMatching(c: seq<SearchProduct>, q: string, now: nat)
    requires forall i :: 0 <= i < |c| ==> Matches(c[i], q)
    ensures |Expand(c, q, now)| == COPIES * |c|
  {
    var keep := (p: SearchProduct) => Matches(p, q);
    FilterAll(keep, c);
    ResultCount(c, q, now);
  }

  /** A result id names its product and its copy number. */
  lemma ResultIdInjective(a: nat, k: nat, b: nat, m: nat)
    requires ResultId(a, k) == ResultId(b, m)
    ensures a == b && k == m
  {
    DecimalHasNo(a, '-');
    DecimalHasNo(k, '-');
    DecimalHasNo(b, '-');
    DecimalHasNo(m, '-');
    assert '-' !in "search";
    SplitThree(Decimal(a), "search", Decimal(k), '-');
    SplitThree(Decimal(b), "search", Decimal(m), '-');
    if a != b { DecimalInjective(a, b); }
    if k != m { DecimalInjective(k, m); }
  }

  predicate UniqueResultIds(r: seq<SearchResult>) {
    forall i, j :: 0 <= i < j < |r| ==> r[i].id != r[j].id
  }

  predicate UniqueProductIds(c: seq<SearchProduct>) {
    forall i, j :: 0 <= i < j < |c| ==> c[i].id != c[j].id
  }

  /** Every card comes from a product of the catalogue. */
  lemma {:induction false} ResultsFromCatalogue(catalogue: seq<SearchProduct>, query: string, now: nat)
    ensures forall r :: r in Expand(catalogue, query, now) ==>
      r.source in catalogue && Matches(r.source, query)
      && exists k :: 1 <= k <= COPIES && r.id == ResultId(r.source.id, k)
  {
    if catalogue != [] {
      var init := catalogue[..|catalogue| - 1];
      var last := catalogue[|catalogue| - 1];
      ResultsFromCatalogue(init, query, now);
      forall r | r in Expand(catalogue, query, now)
        ensures r.source in catalogue && Matches(r.source, query)
                && exists k :: 1 <= k <= COPIES && r.id == ResultId(r.source.id, k)
      {
        if r !in Expand(init, query, now) {
          var c := Cards(last, now);
          var k :| 0 <= k < |c| && c[k] == r;
          assert r.id == ResultId(r.source.id, k + 1);
        } else {
          assert r.source in init;
        }
      }
    }
  }

  /** When the catalogue's product ids are distinct, so are the result ids. */
  lemma {:induction false} ResultIdsUnique(catalogue: seq<SearchProduct>, query: string, now: nat)
    requires UniqueProductIds(catalogue)
    ensures UniqueResultIds(Expand(catalogue, query, now))
  {
    if catalogue != [] {
      var init := catalogue[..|catalogue| - 1];
      var last := catalogue[|catalogue| - 1];
      assert UniqueProductIds(init) by {
        assert forall n :: 0 <= n < |init| ==> init[n] == catalogue[n];
      }
      assert forall n :: 0 <= n < |init| ==> init[n].id != last.id by {
        assert forall n :: 0 <= n < |init| ==> init[n] == catalogue[n];
      }
      ResultIdsUnique(init, query, now);
      var a := Expand(init, query, now);
      var b := if Matches(last, query) then Cards(last, now) else [];
      CardIdsDistinct(last, now);
      var r := a + b;
      forall i, j | 0 <= i < j < |r| ensures r[i].id != r[j].id {
        if j < |a| {
          assert r[i] == a[i] && r[j] == a[j];
        } else if i >= |a| {
          assert r[i] == b[i - |a|] && r[j] == b[j - |a|];
        } else {
          assert r[i] == a[i] && r[j] == Card(last, j - |a|, now);
          CardIdFresh(init, last, query, now, a[i], j - |a| + 1);
        }
      }
    }
  }

  /** The five cards of one product carry five different ids. */
  lemma CardIdsDistinct(p: SearchProduct, now: nat)
    ensures UniqueResultIds(Cards(p, now))
  {
    var c := Cards(p, now);
    forall i, j | 0 <= i < j < |c| ensures c[i].id != c[j].id {
      if c[i].id == c[j].id { ResultIdInjective(p.id, i + 1, p.id, j + 1); }
    }
  }

  /** A card of an earlier product cannot share its id with a card of a
      product whose id no earlier product has. */
  lemma CardIdFresh(init: seq<SearchProduct>, last: SearchProduct, query: string, now: nat, x: SearchResult, m: nat)
    requires x in Expand(init, query, now)
    requires forall n :: 0 <= n < |init| ==> init[n].id != last.id
    ensures x.id != ResultId(last.id, m)
  {
    ResultsFromCatalogue(init, query, now);
    var k :| 1 <= k <= COPIES && x.id == ResultId(x.source.id, k);
    if x.id == ResultId(last.id, m) {
      ResultIdInjective(x.source.id, k, last.id, m);
    }
  }

  // ---------------------------------------------------------------------
  // The recent-queries list.

  /** `[q, ...prev.filter(x => x !== q)].slice(0, 8)` */
  function UpdateHistory(prev: seq<string>, q: string): (r: seq<string>)
    ensures |r| == if 1 + |Filter((x: string) => x != q, prev)| < HISTORY_MAX then 1 + |Filter((x: string) => x != q, prev)| else HISTORY_MAX
    ensures r[0] == q && q !in r[1..]
    ensures r[1..] == Filter((x: string) => x != q, prev)[..|r| - 1]
  {
    var rest := Filter((x: string) => x != q, prev);
    var all := [q] + rest;
    var r := if |all| < HISTORY_MAX then all else all[..HISTORY_MAX];
    assert r[1..] == rest[..|r| - 1];
    assert forall x :: x in r[1..] ==> x in rest;
    r
  }

  /** The other queries keep their relative order. */
  lemma HistoryKeepsOrder(prev: seq<string>, q: string)
    ensures IsSubsequence(UpdateHistory(prev, q)[1..], prev)
  {
    var keep := (x: string) => x != q;
    var r := UpdateHistory(prev, q);
    FilterIsSubsequence(keep, prev);
    PrefixIsSubsequence(Filter(keep, prev), |r| - 1, prev);
  }

  /** A history without repeats stays without repeats. */
  lemma HistoryStaysDistinct(prev: seq<string>, q: string)
    requires forall i, j :: 0 <= i < j < |prev| ==> prev[i] != prev[j]
    ensures var r := UpdateHistory(prev, q); forall i, j :: 0 <= i < j < |r| ==> r[i] != r[j]
  {
    var id := (x: string) => x;
    var keep := (x: string) => x != q;
    assert UniqueBy(id, prev);
    FilterUnique(id, keep, prev);
    var rest := Filter(keep, prev);
    var r := UpdateHistory(prev, q);
    forall i, j | 0 <= i < j < |r| ensures r[i] != r[j] {
      if i == 0 {
        assert r[j] == r[1..][j - 1];
        assert r[j] in r[1..];
      } else {
        assert r[i] == rest[i - 1] && r[j] == rest[j - 1];
        assert id(rest[i - 1]) != id(rest[j - 1]);
      }
    }
  }

  // ---------------------------------------------------------------------
  // The page state.

  class SearchPage {
    var query: string
    var results: seq<SearchResult>
    var loading: bool
    var hasSearched: bool
    var history: seq<string>
    var showSuggestions: bool
    const catalogue: seq<SearchProduct>

    constructor (initialQuery: string)
      ensures catalogue == CATALOGUE
      ensures query == initialQuery && results == [] && !loading && !hasSearched && history == [] && !showSuggestions
    {
      query, results, loading, hasSearched, history, showSuggestions := initialQuery, [], false, false, [], false;
      catalogue := CATALOGUE;
    }

    /** `performSearch(q)`: a blank query clears the results and keeps the
        history; any other query replaces the results with the catalogue's
        cards and moves the query to the front of the history. The 800 ms
        pause is not modelled, only the state once it is over. */
    method PerformSearch(q: string, now: nat)
      modifies this`results, this`loading, this`hasSearched, this`history
      ensures AllSpace(q) ==> results == [] && !hasSearched && history == old(history) && loading == old(loading)
      ensures !AllSpace(q) ==>
        results == Expand(catalogue, q, now) && hasSearched && !loading && history == UpdateHistory(old(history), q)
    {
      if IsBlank(q) {
        results := [];
        hasSearched := false;
        return;
      }
      loading := true;
      hasSearched := true;
      results := CollectResults(catalogue, q, now);
      loading := false;
      history := UpdateHistory(history, q);
    }

    /** `handleInputChange` */
    method HandleInputChange(value: string)
      modifies this`query, this`showSuggestions
      ensures query == value && (showSuggestions <==> !AllSpace(value))
    {
      query := value;
      showSuggestions := !IsBlank(value);
    }

    /** `handleSearch`: only a non-blank query is searched. */
    method HandleSearch(now: nat)
      modifies this`results, this`loading, this`hasSearched, this`history, this`showSuggestions
      ensures AllSpace(old(query)) ==> results == old(results) && history == old(history) && showSuggestions == old(showSuggestions)
                                       && hasSearched == old(hasSearched) && loading == old(loading)
      ensures !AllSpace(old(query)) ==> results == Expand(catalogue, query, now) && history == UpdateHistory(old(history), query)
                                        && hasSearched && !loading && !showSuggestions
    {
      if !IsBlank(query) {
        PerformSearch(query, now);
        showSuggestions := false;
      }
    }

    /** `handleClear` */
    method HandleClear()
      modifies this`query, this`results, this`hasSearched, this`showSuggestions
      ensures query == "" && results == [] && !hasSearched && !showSuggestions
    {
      query := "";
      results := [];
      hasSearched := false;
      showSuggestions := false;
    }

    /** `handleQuickSearch(term)` */
    method HandleQuickSearch(term: string, now: nat)
      modifies this`query, this`results, this`loading, this`hasSearched, this`history, this`showSuggestions
      ensures query == term && !showSuggestions
      ensures !AllSpace(term) ==> results == Expand(catalogue, term, now) && history == UpdateHistory(old(history), term)
                                  && hasSearched && !loading
      ensures AllSpace(term) ==> results == [] && history == old(history) && !hasSearched && loading == old(loading)
    {
      query := term;
      PerformSearch(term, now);
      showSuggestions := false;
    }
  }
}
