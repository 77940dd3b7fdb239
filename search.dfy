/**
 * Page search (main.py, `GET /pages`): keep the stored pages whose follower
 * count lies in a range and, when a category is given, whose category equals
 * it; skip `(page - 1) * limit` of them, take at most `limit`, and report as
 * `total` the number of pages returned.
 *
 * The document store evaluates the query. Its listing order is not specified
 * by the service, so the documents are taken in the order the store lists them.
 */
module Search {
  import opened Wrappers
  import opened Documents
  import Pages

  /** The query parameters of `GET /pages`. */
  datatype SearchQuery = SearchQuery(
    minFollowers: int,
    maxFollowers: int,
    category: Option<string>,
    page: int,
    limit: int)

  /** The parameter values used when the request leaves them out. */
  const Defaults: SearchQuery := SearchQuery(0, 1_000_000, None, 1, 10)

  /** The response body `{"total": ..., "page": ..., "pages": [...]}`. */
  datatype SearchResponse = SearchResponse(total: int, page: int, pages: seq<Document>)

  /** The response, or the store rejecting a query with a negative offset or limit. */
  datatype Outcome = Found(response: SearchResponse) | Rejected

  /**
   * The category filter actually applied: `if category:` adds the equality
   * filter only for a category that is neither `None` nor empty.
   */
  function CategoryFilter(category: Option<string>): (f: Option<string>)
    ensures f.Some? <==> category.Some? && category.value != ""
    ensures f.Some? ==> f == category
  {
    if category.Some? && category.value != "" then category else None
  }

  /**
   * The store's `where` clauses: a numeric `followers` field within
   * `[minFollowers, maxFollowers]`, and `category` equal to the filter when
   * one applies. A document lacking a filtered field never matches.
   */
  predicate Matches(d: Document, q: SearchQuery) {
    && "followers" in d && d["followers"].Int?
    && q.minFollowers <= d["followers"].i <= q.maxFollowers
    && (CategoryFilter(q.category).Some? ==>
          "category" in d && d["category"] == Str(CategoryFilter(q.category).value))
  }

  /** The matching documents, in the store's order. */
  function Filter(docs: seq<Document>, q: SearchQuery): (r: seq<Document>)
    ensures |r| <= |docs|
    ensures forall d :: d in r <==> d in docs && Matches(d, q)
  {
    if docs == [] then []
    else
      var rest := Filter(docs[1..], q);
      assert forall d :: d in docs <==> d == docs[0] || d in docs[1..];
      if Matches(docs[0], q) then [docs[0]] + rest else rest
  }

  /** Filtering keeps the store's order: it distributes over concatenation. */
  lemma {:induction false} FilterAppend(a: seq<Document>, b: seq<Document>, q: SearchQuery)
    ensures Filter(a + b, q) == Filter(a, q) + Filter(b, q)
  {
    if a == [] {
      assert a + b == b;
    } else {
      assert (a + b)[1..] == a[1..] + b;
      FilterAppend(a[1..], b, q);
    }
  }

  /** Only the follower range and the category decide which documents match. */
  lemma {:induction false} FilterSameCriteria(docs: seq<Document>, q: SearchQuery, q': SearchQuery)
    requires q.minFollowers == q'.minFollowers && q.maxFollowers == q'.maxFollowers
    requires q.category == q'.category
    ensures Filter(docs, q) == Filter(docs, q')
  {
    if docs != [] {
      FilterSameCriteria(docs[1..], q, q');
    }
  }

  /** The number of documents the store skips: `(page - 1) * limit`. */
  function Offset(q: SearchQuery): int {
    (q.page - 1) * q.limit
  }

  /** `offset(n).limit(m)` on a result list: skip `n`, then take at most `m`. */
  function Window(s: seq<Document>, offset: nat, limit: nat): (w: seq<Document>)
    ensures |w| == if offset >= |s| then 0 else if limit < |s| - offset then limit else |s| - offset
    ensures forall i :: 0 <= i < |w| ==> w[i] == s[offset + i]
  {
    if offset >= |s| then []
    else if limit < |s| - offset then s[offset..offset + limit]
    else s[offset..]
  }

  /** Two adjacent windows cover the double-sized window starting at the first. */
  lemma AdjacentWindows(s: seq<Document>, offset: nat, limit: nat)
    ensures Window(s, offset, limit) + Window(s, offset + limit, limit) == Window(s, offset, 2 * limit)
  {
  }

  /**
   * search_pages. A negative offset or limit is refused by the store;
   * otherwise the result holds only matching documents, at most `limit` of
   * them, and `total` counts this page, not all matches.
   */
  function SearchPages(docs: seq<Document>, q: SearchQuery): (r: Outcome)
    ensures r.Rejected? <==> Offset(q) < 0 || q.limit < 0
    ensures r.Found? ==> && r.response.page == q.page
                         && r.response.total == |r.response.pages|
                         && |r.response.pages| <= q.limit
    ensures r.Found? ==> forall d :: d in r.response.pages ==> d in docs && Matches(d, q)
    ensures r.Found? ==> forall i :: 0 <= i < |r.response.pages| ==>
                           && 0 <= Offset(q) + i < |Filter(docs, q)|
                           && r.response.pages[i] == Filter(docs, q)[Offset(q) + i]
    ensures r.Found? ==> (|r.response.pages| ==
                            if Offset(q) >= |Filter(docs, q)| then 0
                            else if q.limit < |Filter(docs, q)| - Offset(q) then q.limit
                            else |Filter(docs, q)| - Offset(q))
  {
    var offset := Offset(q);
    if offset < 0 || q.limit < 0 then Rejected
    else
      var pages := Window(Filter(docs, q), offset, q.limit);
      Found(SearchResponse(|pages|, q.page, pages))
  }

  /** A request that leaves every parameter out is answered with the first ten matches. */
  lemma DefaultsAccepted(docs: seq<Document>)
    ensures SearchPages(docs, Defaults).Found?
    ensures var r := SearchPages(docs, Defaults).response;
            && r.page == 1
            && |r.pages| == if |Filter(docs, Defaults)| < 10 then |Filter(docs, Defaults)| else 10
  {
  }

  /** A page falls short of `limit` only when the matches run out. */
  lemma ShortPageIsLast(docs: seq<Document>, q: SearchQuery)
    requires SearchPages(docs, q).Found?
    ensures var n := |SearchPages(docs, q).response.pages|;
            n < q.limit <==> |Filter(docs, q)| < Offset(q) + q.limit
  {
  }

  /** The next page starts `limit` documents after this one. */
  lemma OffsetOfNextPage(q: SearchQuery)
    requires q.page >= 1 && q.limit >= 0
    ensures Offset(q) >= 0
    ensures Offset(q.(page := q.page + 1)) == Offset(q) + q.limit
  {
  }

  /**
   * With the store's order fixed, page `p` followed by page `p + 1` lists the
   * same documents as one page of twice the size starting where page `p` starts.
   */
  lemma ConsecutivePages(docs: seq<Document>, q: SearchQuery)
    requires q.page >= 1 && q.limit >= 0
    ensures var next := q.(page := q.page + 1);
            && SearchPages(docs, q).Found? && SearchPages(docs, next).Found?
            && SearchPages(docs, q).response.pages + SearchPages(docs, next).response.pages
               == Window(Filter(docs, q), Offset(q), 2 * q.limit)
  {
    var next := q.(page := q.page + 1);
    OffsetOfNextPage(q);
    var offset: nat, limit: nat := Offset(q), q.limit;
    var matching := Filter(docs, q);
    FilterSameCriteria(docs, next, q);
    assert SearchPages(docs, q).response.pages == Window(matching, offset, limit);
    assert SearchPages(docs, next).response.pages == Window(matching, offset + limit, limit);
    AdjacentWindows(matching, offset, limit);
  }

  /** The stored documents, listed in the order `order` of their keys. */
  function Listing(store: Store, order: seq<string>): (docs: seq<Document>)
    requires forall k :: k in order ==> k in store
    ensures |docs| == |order|
    ensures forall i :: 0 <= i < |order| ==> docs[i] == store[order[i]]
    ensures forall d :: d in docs ==> d in store.Values
  {
    if order == [] then [] else [store[order[0]]] + Listing(store, order[1..])
  }

  /**
   * search_pages against the service's store, listed in the order `order`
   * of its keys: every page returned is a stored document that matches.
   */
  function StoreSearch(service: Pages.PageService, order: seq<string>, q: SearchQuery): (r: Outcome)
    reads service
    requires forall k :: k in order <==> k in service.store
    ensures r.Found? ==> forall d :: d in r.response.pages ==> d in service.store.Values && Matches(d, q)
  {
    SearchPages(Listing(service.store, order), q)
  }
}
