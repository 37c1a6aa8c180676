/**
 * The product-list hook of the catalogue pages
 * (src/hooks/useProductFetcher.ts): the list request built from the
 * filters, the page counter, and the append-or-replace handling of each
 * page of results. Each request is taken as settling with the reply given
 * before anything else happens.
 */
module ProductFetcher {
  import opened Wrappers
  import opened JsonDoc
  import opened Catalog
  import opened Paging

  const PAGE_SIZE: int := 20
  const LIST_ENDPOINT: string := "/product/list/"

  /**
   * The hook's arguments. Every filter is held as the JSON value it is sent
   * as, with `None` for `undefined`.
   */
  datatype FetcherArgs = FetcherArgs(
    filtersReady: bool,
    query: Option<string>,
    discounted: Option<Json>,
    isFeatured: Option<Json>,
    isNew: Option<Json>,
    orderBy: Option<Json>,
    priceLow: Option<Json>,
    priceHigh: Option<Json>,
    selectedAttributes: Option<Json>,
    categories: Option<Json>,
    collections: Option<Json>)

  /** `if (query)`: a query that is neither `undefined` nor empty. */
  predicate HasQuery(a: FetcherArgs) {
    a.query.Some? && a.query.value != ""
  }

  /** `price ?? undefined`: a `null` price is left out. */
  function Defined(v: Option<Json>): (r: Option<Json>)
    ensures r.Some? <==> v.Some? && !v.value.JNull?
    ensures r.Some? ==> r == v
  {
    if v.Some? && v.value.JNull? then None else v
  }

  /** The keys a list request can carry. */
  datatype Key =
    | Page | PageSize | FullData | Query
    | Discounted | IsFeatured | IsNew | OrderBy | PriceLow | PriceHigh
    | AttributeFilters | Categories | Collections

  /** The name each key is sent under. */
  function KeyName(k: Key): string {
    match k
    case Page => "page"
    case PageSize => "page_size"
    case FullData => "full_data"
    case Query => "query"
    case Discounted => "discounted"
    case IsFeatured => "is_featured"
    case IsNew => "is_new"
    case OrderBy => "order_by"
    case PriceLow => "plow"
    case PriceHigh => "phigh"
    case AttributeFilters => "attribute_filters"
    case Categories => "categories"
    case Collections => "collections"
  }

  /** The keys sent besides the paging keys when there is no query. */
  predicate IsFilterKey(k: Key) {
    !(k.Page? || k.PageSize? || k.FullData? || k.Query?)
  }

  /** The object sent as the body of a list request. */
  type Body = map<Key, Json>

  /** `obj[key]`, with `None` for a key that is not set. */
  function Field(b: Body, key: Key): Option<Json> {
    if key in b then Some(b[key]) else None
  }

  /**
   * `obj[key] = v`: an `undefined` value (`None`) leaves the key out of the
   * text `JSON.stringify` writes.
   */
  function With(b: Body, key: Key, v: Option<Json>): (r: Body)
    ensures Field(r, key) == (if v.Some? then v else Field(b, key))
    ensures forall other | other != key :: Field(r, other) == Field(b, other)
  {
    if v.Some? then b[key := v.value] else b
  }

  /**
   * What the body of a list request for page `page` holds: the paging keys,
   * and then either the query alone or every filter, a `null` price left
   * out.
   */
  predicate ProductQuery(params: Body, a: FetcherArgs, page: int) {
    Field(params, Page) == Some(JNum(page)) &&
    Field(params, PageSize) == Some(JNum(PAGE_SIZE)) &&
    Field(params, FullData) == Some(JBool(true)) &&
    if HasQuery(a) then
      Field(params, Query) == Some(JStr(a.query.value)) &&
      forall k | IsFilterKey(k) :: Field(params, k) == None
    else
      Field(params, Query) == None &&
      Field(params, Discounted) == a.discounted &&
      Field(params, IsFeatured) == a.isFeatured &&
      Field(params, IsNew) == a.isNew &&
      Field(params, OrderBy) == a.orderBy &&
      Field(params, PriceLow) == Defined(a.priceLow) &&
      Field(params, PriceHigh) == Defined(a.priceHigh) &&
      Field(params, AttributeFilters) == a.selectedAttributes &&
      Field(params, Categories) == a.categories &&
      Field(params, Collections) == a.collections
  }

  /** The paging keys every list request starts with. */
  function PagingBody(page: int): (b: Body)
    ensures Field(b, Page) == Some(JNum(page))
    ensures Field(b, PageSize) == Some(JNum(PAGE_SIZE))
    ensures Field(b, FullData) == Some(JBool(true))
    ensures forall k: Key | k.Query? || IsFilterKey(k) :: Field(b, k) == None
  {
    map[Page := JNum(page), PageSize := JNum(PAGE_SIZE), FullData := JBool(true)]
  }

  /** The `params` object, filled field by field. */
  method BuildParams(a: FetcherArgs, page: int) returns (params: Body)
    ensures ProductQuery(params, a, page)
  {
    if HasQuery(a) {
      params := QueryParams(a, page);
    } else {
      params := FilterParams(a, page);
    }
  }

  /** With a query, the query is the only key besides the paging keys. */
  method QueryParams(a: FetcherArgs, page: int) returns (params: Body)
    requires HasQuery(a)
    ensures ProductQuery(params, a, page)
  {
    params := PagingBody(page);
    params := With(params, Query, Some(JStr(a.query.value)));
  }

  /** Without one, every filter is set. */
  method FilterParams(a: FetcherArgs, page: int) returns (params: Body)
    requires !HasQuery(a)
    ensures ProductQuery(params, a, page)
  {
    params := PagingBody(page);
    params := WithFlags(params, a);
    params := WithValues(params, a);
  }

  /** The flag filters and the ordering, each left out when `undefined`. */
  method WithFlags(start: Body, a: FetcherArgs) returns (params: Body)
    requires Field(start, Discounted) == None && Field(start, IsFeatured) == None && Field(start, IsNew) == None && Field(start, OrderBy) == None
    ensures Field(params, Discounted) == a.discounted
    ensures Field(params, IsFeatured) == a.isFeatured
    ensures Field(params, IsNew) == a.isNew
    ensures Field(params, OrderBy) == a.orderBy
    ensures Field(params, Page) == Field(start, Page) && Field(params, PageSize) == Field(start, PageSize)
    ensures Field(params, FullData) == Field(start, FullData) && Field(params, Query) == Field(start, Query)
    ensures Field(params, PriceLow) == Field(start, PriceLow) && Field(params, PriceHigh) == Field(start, PriceHigh)
    ensures Field(params, AttributeFilters) == Field(start, AttributeFilters)
    ensures Field(params, Categories) == Field(start, Categories) && Field(params, Collections) == Field(start, Collections)
  {
    params := With(start, Discounted, a.discounted);
    params := With(params, IsFeatured, a.isFeatured);
    params := With(params, IsNew, a.isNew);
    params := With(params, OrderBy, a.orderBy);
  }

  /** The prices, through `?? undefined`, and the attribute, category and collection filters. */
  method WithValues(start: Body, a: FetcherArgs) returns (params: Body)
    requires Field(start, PriceLow) == None && Field(start, PriceHigh) == None && Field(start, AttributeFilters) == None
    requires Field(start, Categories) == None && Field(start, Collections) == None
    ensures Field(params, PriceLow) == Defined(a.priceLow)
    ensures Field(params, PriceHigh) == Defined(a.priceHigh)
    ensures Field(params, AttributeFilters) == a.selectedAttributes
    ensures Field(params, Categories) == a.categories
    ensures Field(params, Collections) == a.collections
    ensures Field(params, Page) == Field(start, Page) && Field(params, PageSize) == Field(start, PageSize)
    ensures Field(params, FullData) == Field(start, FullData) && Field(params, Query) == Field(start, Query)
    ensures Field(params, Discounted) == Field(start, Discounted) && Field(params, IsFeatured) == Field(start, IsFeatured)
    ensures Field(params, IsNew) == Field(start, IsNew) && Field(params, OrderBy) == Field(start, OrderBy)
  {
    params := With(start, PriceLow, Defined(a.priceLow));
    params := With(params, PriceHigh, Defined(a.priceHigh));
    params := With(params, AttributeFilters, a.selectedAttributes);
    params := With(params, Categories, a.categories);
    params := With(params, Collections, a.collections);
  }

  /** With a query, the filters do not matter: two requests with the same query and page are the same object. */
  lemma QueryOverridesFilters(p1: Body, p2: Body, a1: FetcherArgs, a2: FetcherArgs, page: int)
    requires ProductQuery(p1, a1, page) && ProductQuery(p2, a2, page)
    requires HasQuery(a1) && a1.query == a2.query
    ensures forall k :: Field(p1, k) == Field(p2, k)
  {
  }

  /** A price of `null` is not sent, while a price of 0 is. */
  lemma NullPriceOmitted(params: Body, a: FetcherArgs, page: int)
    requires ProductQuery(params, a, page) && !HasQuery(a)
    ensures a.priceLow == Some(JNull) ==> Field(params, PriceLow) == None
    ensures a.priceLow == Some(JNum(0)) ==> Field(params, PriceLow) == Some(JNum(0))
  {
  }

  /**
   * The reply to a list request, as read: `None` when reading
   * `response.results` throws (a `null` response, or one without results).
   * A missing list reads as `None` and is taken as empty.
   */
  datatype ListReply = ListReply(products: Option<seq<Product>>, availableAttributes: Option<seq<Attribute>>, count: Option<int>)

  class Fetcher {
    var args: FetcherArgs
    var products: seq<Product>
    var totalCount: Option<int>
    var hasMore: bool
    var infiniteLoading: bool
    var availableAttributes: seq<Attribute>
    /** `pageRef.current`. */
    var page: int
    /** The bodies posted to the list endpoint, in order. */
    var sent: seq<Body>
    /** The pages received since the list was last replaced. */
    ghost var pages: seq<seq<Product>>

    ghost predicate Valid()
      reads this
    {
      products == Concat(pages)
    }

    /** The hook's initial state, before its effect has run. */
    constructor (args: FetcherArgs)
      ensures Valid()
      ensures this.args == args && products == [] && totalCount == Some(0) && hasMore && !infiniteLoading
      ensures availableAttributes == [] && page == 1 && sent == []
    {
      this.args := args;
      products := [];
      totalCount := Some(0);
      hasMore := true;
      infiniteLoading := false;
      availableAttributes := [];
      page := 1;
      sent := [];
      pages := [];
    }

    /** The part after the `await`: the page is appended or replaces the list. */
    method Settle(append: bool, reply: ListReply)
      requires Valid()
      modifies this
      ensures Valid()
      ensures var got := reply.products.GetOr([]);
        products == (if append then old(products) + got else got) &&
        totalCount == reply.count && availableAttributes == reply.availableAttributes.GetOr([]) &&
        hasMore == HasMore(reply.count, |products|, |got|, PAGE_SIZE) && !infiniteLoading
      ensures args == old(args) && page == old(page) && sent == old(sent)
    {
      var got := reply.products.GetOr([]);
      ghost var before := if append then pages else [];
      ConcatAppend(before, got);
      var newProducts := (if append then products else []) + got;
      assert Concat(before + [got]) == newProducts;
      products, pages := newProducts, before + [got];
      totalCount := reply.count;
      availableAttributes := reply.availableAttributes.GetOr([]);
      hasMore := HasMore(reply.count, |newProducts|, |got|, PAGE_SIZE);
      infiniteLoading := false;
    }

    /**
     * `getProducts(page, append)`: nothing unless the filters are ready and
     * no load is in progress. A reply that cannot be read leaves the load
     * flag set.
     */
    method GetProducts(pageNo: int, append: bool, reply: Option<ListReply>)
      requires Valid()
      modifies this
      ensures Valid()
      ensures args == old(args) && page == old(page)
      ensures !old(args.filtersReady) || old(infiniteLoading) ==>
        products == old(products) && sent == old(sent) && infiniteLoading == old(infiniteLoading) &&
        hasMore == old(hasMore) && totalCount == old(totalCount)
      ensures old(args.filtersReady) && !old(infiniteLoading) ==>
        |sent| == |old(sent)| + 1 && sent[..|old(sent)|] == old(sent) && ProductQuery(sent[|sent| - 1], args, pageNo) &&
        if reply.None? then infiniteLoading && products == old(products) else
          var got := reply.value.products.GetOr([]);
          products == (if append then old(products) + got else got) &&
          totalCount == reply.value.count && availableAttributes == reply.value.availableAttributes.GetOr([]) &&
          hasMore == HasMore(reply.value.count, |products|, |got|, PAGE_SIZE) && !infiniteLoading
    {
      if !args.filtersReady || infiniteLoading {
        return;
      }
      infiniteLoading := true;
      var params := BuildParams(args, pageNo);
      sent := sent + [params];
      if reply.None? {
        return;
      }
      Settle(append, reply.value);
    }

    /**
     * The effect run on mount and whenever a filter changes: the page counter
     * goes back to 1 and page 1 replaces the list, whether or not a load is
     * in progress.
     */
    method FiltersChanged(newArgs: FetcherArgs, reply: Option<ListReply>)
      requires Valid()
      modifies this
      ensures Valid()
      ensures args == newArgs && page == 1
      ensures !newArgs.filtersReady ==> products == old(products) && sent == old(sent) && infiniteLoading == old(infiniteLoading)
      ensures newArgs.filtersReady ==>
        |sent| == |old(sent)| + 1 && sent[..|old(sent)|] == old(sent) && ProductQuery(sent[|sent| - 1], newArgs, 1) &&
        if reply.None? then infiniteLoading && products == old(products) else
          var got := reply.value.products.GetOr([]);
          products == got && hasMore == HasMore(reply.value.count, |got|, |got|, PAGE_SIZE) && !infiniteLoading
    {
      args := newArgs;
      page := 1;
      if !args.filtersReady {
        return;
      }
      infiniteLoading := true;
      var params := BuildParams(args, 1);
      sent := sent + [params];
      if reply.None? {
        return;
      }
      Settle(false, reply.value);
    }

    /**
     * The debounced scroll handler near the bottom of the page: the next page
     * is appended, only when no load is in progress and more remain.
     */
    method Scroll(nearBottom: bool, reply: Option<ListReply>)
      requires Valid()
      modifies this
      ensures Valid()
      ensures old(infiniteLoading) || !old(hasMore) || !nearBottom ==>
        products == old(products) && page == old(page) && sent == old(sent)
      ensures !old(infiniteLoading) && old(hasMore) && nearBottom ==>
        page == old(page) + 1 && (old(args.filtersReady) ==> |sent| > 0 && ProductQuery(sent[|sent| - 1], args, page)) &&
        (old(args.filtersReady) && reply.Some? ==> products == old(products) + reply.value.products.GetOr([]))
    {
      if infiniteLoading || !hasMore || !nearBottom {
        return;
      }
      page := page + 1;
      GetProducts(page, true, reply);
    }
  }
}
