/** The `/transactions` handler: turning a search token into a store query,
    and a page number into a window over the query's ordered matches. */
module Listing {
  import opened Wrappers
  import opened Records
  import opened Seqs
  import opened Sorting

  /** Records per page, used for the skip whatever the plan's limit. */
  const PageSize: nat := 10
  /** The result cap of a numeric (price ceiling) search. */
  const NumericLimit: nat := 4
  /** The total the handler reports for every numeric search. */
  const NumericReportedTotal: nat := 4

  /** The store filter a search token turns into. */
  datatype Query = MatchAll | PriceAtMost(ceiling: real) | TextSearch(phrase: string)

  /** The `.sort(...)` option: none, `{price: -1}`, or by text score. */
  datatype Order = Unsorted | PriceDescending | ScoreDescending(phrase: string)

  /** A resolved search: filter, sort order and result cap. */
  datatype Plan = Plan(query: Query, order: Order, limit: nat)

  /** The listing the handler answers with. */
  datatype ListingBody = ListingBody(totalProductsCount: nat, products: seq<Record>)

  function Min(a: int, b: int): int {
    if a <= b then a else b
  }

  /** The token is non-empty and numeric: the price-ceiling branch. */
  predicate IsNumericSearch(search: string, parse: NumberParser) {
    search != "" && parse(search).Some?
  }

  /** Classifies a search token into exactly one of the three branches. */
  function Resolve(search: string, parse: NumberParser): (p: Plan)
    ensures p.query.MatchAll? <==> search == ""
    ensures p.query.PriceAtMost? <==> IsNumericSearch(search, parse)
    ensures p.query.TextSearch? <==> search != "" && parse(search).None?
    ensures p.query.PriceAtMost? ==> p.query.ceiling == parse(search).value
    ensures p.query.TextSearch? ==> p.query.phrase == search
    ensures p.order.Unsorted? <==> p.query.MatchAll?
    ensures p.order.PriceDescending? <==> p.query.PriceAtMost?
    ensures p.order.ScoreDescending? <==> p.query.TextSearch?
    ensures p.order.ScoreDescending? ==> p.order.phrase == search
    ensures p.limit == (if p.query.PriceAtMost? then NumericLimit else PageSize)
  {
    if search == "" then Plan(MatchAll, Unsorted, PageSize)
    else
      match parse(search)
      case Some(v) => Plan(PriceAtMost(v), PriceDescending, NumericLimit)
      case None => Plan(TextSearch(search), ScoreDescending(search), PageSize)
  }

  /** Whether the store's filter for `q` selects record `r`. */
  predicate Matches(q: Query, text: TextIndex, r: Record) {
    match q
    case MatchAll => true
    case PriceAtMost(c) => r.price <= c
    case TextSearch(t) => text.matches(t, r)
  }

  function Matcher(q: Query, text: TextIndex): Record -> bool {
    r => Matches(q, text, r)
  }

  /** The key a sorted order is descending in. */
  function Key(o: Order, text: TextIndex): Record -> real {
    match o
    case ScoreDescending(t) => (r: Record) => text.score(t, r)
    case _ => (r: Record) => r.price
  }

  /** `find(query).sort(option)`: every match of the plan's query, in the
      plan's order (the store's own order when unsorted). */
  function Ranked(records: seq<Record>, text: TextIndex, p: Plan): (r: seq<Record>)
    ensures |r| == Count(records, Matcher(p.query, text))
    ensures !p.order.Unsorted? ==> Nonincreasing(r, Key(p.order, text))
  {
    var hits := Filter(records, Matcher(p.query, text));
    CountIsFilterLength(records, Matcher(p.query, text));
    if p.order.Unsorted? then hits else SortDesc(hits, Key(p.order, text))
  }

  /** The ranked matches are the matches of the query, each as often as
      it is stored: a rearrangement of the filtered records. */
  lemma RankedContents(records: seq<Record>, text: TextIndex, p: Plan)
    ensures var r := Ranked(records, text, p);
      && multiset(r) == multiset(Filter(records, Matcher(p.query, text)))
      && forall x :: x in r <==> x in records && Matches(p.query, text, x)
  {
    var hits := Filter(records, Matcher(p.query, text));
    var r := Ranked(records, text, p);
    FilterMembers(records, Matcher(p.query, text));
    assert forall x :: x in r <==> x in multiset(hits);
  }

  /** `.skip((page - 1) * 10)`. */
  function Skip(page: int): nat
    requires page >= 1
  {
    (page - 1) * PageSize
  }

  /** `.skip(skip).limit(limit)`: at most `limit` consecutive elements
      starting at position `skip`, or none when `skip` is past the end. */
  function Window<T>(s: seq<T>, skip: nat, limit: nat): (w: seq<T>)
    ensures |w| == if skip >= |s| then 0 else Min(limit, |s| - skip)
    ensures forall i :: 0 <= i < |w| ==> w[i] == s[skip + i]
  {
    if skip >= |s| then [] else s[skip..Min(skip + limit, |s|)]
  }

  /** A window keeps the order and the members of what it is cut from. */
  lemma WindowOf<T>(s: seq<T>, skip: nat, limit: nat, key: T -> real)
    ensures forall x :: x in Window(s, skip, limit) ==> x in s
    ensures Nonincreasing(s, key) ==> Nonincreasing(Window(s, skip, limit), key)
  {
    var w := Window(s, skip, limit);
    forall x | x in w ensures x in s {
      var i :| 0 <= i < |w| && w[i] == x;
      assert s[skip + i] == x;
    }
  }

  /** The records the handler lists on page `page` under plan `p`: the
      window of the ordered matches that starts at the page's skip. */
  function PageOf(records: seq<Record>, text: TextIndex, p: Plan, page: int): (w: seq<Record>)
    requires page >= 1
    ensures var n := Count(records, Matcher(p.query, text));
      |w| == if Skip(page) >= n then 0 else Min(p.limit, n - Skip(page))
    ensures forall i :: 0 <= i < |w| ==> w[i] in records && Matches(p.query, text, w[i])
    ensures !p.order.Unsorted? ==> Nonincreasing(w, Key(p.order, text))
    ensures p.query.MatchAll? && p.order.Unsorted? ==> w == Window(records, Skip(page), p.limit)
  {
    PageMembers(records, text, p, page);
    PageLength(records, text, p, page);
    RankedAll(records, text, p);
    Window(Ranked(records, text, p), Skip(page), p.limit)
  }

  /** A page holds only stored records the query selects, in the plan's
      order. */
  lemma PageMembers(records: seq<Record>, text: TextIndex, p: Plan, page: int)
    requires page >= 1
    ensures var w := Window(Ranked(records, text, p), Skip(page), p.limit);
      && (forall x :: x in w ==> x in records && Matches(p.query, text, x))
      && (!p.order.Unsorted? ==> Nonincreasing(w, Key(p.order, text)))
  {
    RankedContents(records, text, p);
    WindowOf(Ranked(records, text, p), Skip(page), p.limit, Key(p.order, text));
  }

  /** Slot i of page `page` holds the match ranked `(page - 1) * 10 + i`. */
  lemma PageRanks(records: seq<Record>, text: TextIndex, p: Plan, page: int)
    requires page >= 1
    ensures var w := PageOf(records, text, p, page);
      forall i :: 0 <= i < |w| ==> w[i] == Ranked(records, text, p)[Skip(page) + i]
  {
    assert PageOf(records, text, p, page) == Window(Ranked(records, text, p), Skip(page), p.limit);
  }

  /** A page holds the matches from the skip on, up to the limit. */
  lemma PageLength(records: seq<Record>, text: TextIndex, p: Plan, page: int)
    requires page >= 1
    ensures var n := Count(records, Matcher(p.query, text));
      var w := Window(Ranked(records, text, p), Skip(page), p.limit);
      |w| == if Skip(page) >= n then 0 else Min(p.limit, n - Skip(page))
  {
  }

  /** Without a filter or an order the ranked matches are the stored
      records as they are. */
  lemma RankedAll(records: seq<Record>, text: TextIndex, p: Plan)
    ensures p.query.MatchAll? && p.order.Unsorted? ==> Ranked(records, text, p) == records
  {
    if p.query.MatchAll? && p.order.Unsorted? {
      FilterAll(records, Matcher(p.query, text));
    }
  }

  /** `GET /transactions?page=&search=`; an absent search is the empty
      token. The reported total is 4 for every numeric search, whatever the
      number of matches, and the match count of the query otherwise. */
  function Transactions(store: Store, page: int, search: string, parse: NumberParser): (r: Result<ListingBody, Error>)
    requires page >= 1
    ensures r.Failure? <==> store.Offline?
    ensures r.Failure? ==> r.error == StoreFailure && r.error.Status() == 500
    ensures r.Success? ==> |r.value.products| <= Resolve(search, parse).limit <= PageSize
    ensures r.Success? && IsNumericSearch(search, parse) ==>
      r.value.totalProductsCount == NumericReportedTotal
    ensures r.Success? && !IsNumericSearch(search, parse) ==>
      r.value.totalProductsCount == Count(store.records, Matcher(Resolve(search, parse).query, store.text))
    ensures r.Success? ==>
      var p := Resolve(search, parse);
      var n := Count(store.records, Matcher(p.query, store.text));
      |r.value.products| == (if Skip(page) >= n then 0 else Min(p.limit, n - Skip(page)))
    ensures r.Success? ==>
      var p := Resolve(search, parse);
      forall i :: 0 <= i < |r.value.products| ==>
        r.value.products[i] in store.records && Matches(p.query, store.text, r.value.products[i])
  {
    if store.Offline? then Failure(StoreFailure)
    else
      var p := Resolve(search, parse);
      var total := Count(store.records, Matcher(p.query, store.text));
      var data := PageOf(store.records, store.text, p, page);
      if IsNumericSearch(search, parse) then Success(ListingBody(NumericReportedTotal, data))
      else Success(ListingBody(total, data))
  }

  /** The listed records are the ordered matches from position
      `(page - 1) * 10` on, in order. */
  lemma TransactionsPage(store: Store, page: int, search: string, parse: NumberParser)
    requires page >= 1 && store.Online?
    ensures var r := Transactions(store, page, search, parse);
      var ranked := Ranked(store.records, store.text, Resolve(search, parse));
      && r.Success?
      && forall i :: 0 <= i < |r.value.products| ==> r.value.products[i] == ranked[Skip(page) + i]
  {
    var p := Resolve(search, parse);
    PageRanks(store.records, store.text, p, page);
    assert Transactions(store, page, search, parse).value.products == PageOf(store.records, store.text, p, page);
  }

  /** A numeric search lists at most 4 records, every one priced at or
      under the ceiling, in non-increasing price order, and reports 4. */
  lemma NumericListing(store: Store, page: int, search: string, parse: NumberParser)
    requires page >= 1 && store.Online?
    requires IsNumericSearch(search, parse)
    ensures var r := Transactions(store, page, search, parse);
      var products := r.value.products;
      && r.Success?
      && r.value.totalProductsCount == NumericReportedTotal
      && |products| <= NumericLimit
      && (forall i :: 0 <= i < |products| ==> products[i].price <= parse(search).value)
      && (forall i, j :: 0 <= i < j < |products| ==> products[i].price >= products[j].price)
  {
    var p := Resolve(search, parse);
    assert Transactions(store, page, search, parse).value.products == PageOf(store.records, store.text, p, page);
  }

  /** A text search lists records the phrase matches, in non-increasing
      relevance, and reports the number of matching records. */
  lemma TextListing(store: Store, page: int, search: string, parse: NumberParser)
    requires page >= 1 && store.Online?
    requires search != "" && parse(search).None?
    ensures var r := Transactions(store, page, search, parse);
      var products := r.value.products;
      && r.Success?
      && r.value.totalProductsCount == Count(store.records, Matcher(TextSearch(search), store.text))
      && (forall i :: 0 <= i < |products| ==> store.text.matches(search, products[i]))
      && (forall i, j :: 0 <= i < j < |products| ==>
            store.text.score(search, products[i]) >= store.text.score(search, products[j]))
  {
    var p := Resolve(search, parse);
    assert Transactions(store, page, search, parse).value.products == PageOf(store.records, store.text, p, page);
  }

  /** Without a search the page is the stored records from the skip on, up
      to 10, and the total is the number of stored records. */
  lemma UnfilteredListing(store: Store, page: int, parse: NumberParser)
    requires page >= 1 && store.Online?
    ensures var r := Transactions(store, page, "", parse);
      && r.Success?
      && r.value.totalProductsCount == |store.records|
      && r.value.products == Window(store.records, Skip(page), PageSize)
  {
    FilterAll(store.records, Matcher(MatchAll, store.text));
  }

  /** Pages 1 to `k` of `s`, one window after the other. */
  function Windows<T>(s: seq<T>, limit: nat, k: nat): seq<T>
  {
    if k == 0 then [] else Windows(s, limit, k - 1) + Window(s, Skip(k), limit)
  }

  /** Windows as wide as the page size cover a prefix without gap or
      overlap. */
  lemma {:induction false} WindowsTile<T>(s: seq<T>, k: nat)
    ensures Windows(s, PageSize, k) == s[..Min(k * PageSize, |s|)]
  {
    if k > 0 {
      WindowsTile(s, k - 1);
      var start := Skip(k);
      SkipStep(k);
      var a := Min(start, |s|);
      var b := Min(start + PageSize, |s|);
      if start < |s| {
        assert Window(s, start, PageSize) == s[a..b];
      } else {
        assert a == b == |s|;
      }
      assert s[..a] + s[a..b] == s[..b];
    }
  }

  /** Page k starts where pages 1 to k - 1 end. */
  lemma SkipStep(k: nat)
    requires k > 0
    ensures (k - 1) * PageSize == Skip(k) && k * PageSize == Skip(k) + PageSize
  {
  }

  /** The records the handler lists on pages 1 to `k`, in page order. */
  function Pages(records: seq<Record>, text: TextIndex, p: Plan, k: nat): seq<Record>
  {
    Windows(Ranked(records, text, p), p.limit, k)
  }

  /** Pages 1 to k are pages 1 to k - 1 followed by the handler's page k. */
  lemma PagesStep(records: seq<Record>, text: TextIndex, p: Plan, k: nat)
    requires k >= 1
    ensures Pages(records, text, p, k) == Pages(records, text, p, k - 1) + PageOf(records, text, p, k)
  {
  }

  /** With a limit equal to the page size (every non-numeric search),
      pages 1 to k list the first 10k ordered matches, each exactly once
      and in order. */
  lemma PagesTile(records: seq<Record>, text: TextIndex, p: Plan, k: nat)
    requires p.limit == PageSize
    ensures var ranked := Ranked(records, text, p);
      Pages(records, text, p, k) == ranked[..Min(k * PageSize, |ranked|)]
  {
    WindowsTile(Ranked(records, text, p), k);
  }

  /** With the numeric cap of 4 and a skip of 10 per page, a page lists
      only ranks whose position within their block of ten is below 4: the
      5th to 10th matches of every block are on no page. */
  lemma NumericPagesSkipRanks(records: seq<Record>, text: TextIndex, p: Plan, page: int)
    requires page >= 1 && p.limit == NumericLimit
    ensures var ranked := Ranked(records, text, p);
      var w := PageOf(records, text, p, page);
      forall i :: 0 <= i < |w| ==>
        w[i] == ranked[Skip(page) + i] && (Skip(page) + i) % PageSize < NumericLimit
  {
    var ranked := Ranked(records, text, p);
    var w := PageOf(records, text, p, page);
    forall i | 0 <= i < |w|
      ensures w[i] == ranked[Skip(page) + i] && (Skip(page) + i) % PageSize < NumericLimit
    {
      OffsetInPage(page, i);
    }
  }

  /** Position `i` of page `page` is position `i` of its block of ten. */
  lemma {:induction false} OffsetInPage(page: int, i: nat)
    requires page >= 1 && i < PageSize
    ensures (Skip(page) + i) % PageSize == i
    decreases page
  {
    if page > 1 {
      OffsetInPage(page - 1, i);
      assert Skip(page) + i == (Skip(page - 1) + i) + PageSize;
    }
  }
}
