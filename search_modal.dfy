/**
 * The product search modal (src/components/menu/ProductSearchModal.tsx):
 * the query, the paged results with their two loading flags, the scroll
 * step, the reset when the modal opens and the jump to the full search
 * page.
 */
module SearchModal {
  import opened Wrappers
  import opened JsonDoc
  import opened Catalog
  import ProductFetcher

  const PAGE_SIZE: int := 20

  /** The listing arguments a search request stands for: the query alone. */
  function SearchArgs(q: string): ProductFetcher.FetcherArgs {
    ProductFetcher.FetcherArgs(true, Some(q), None, None, None, None, None, None, None, None, None)
  }

  /**
   * The body `{ page, page_size, full_data: true, query }` of a search
   * request: the same object the listing sends for that query.
   */
  method SearchBody(q: string, p: int) returns (params: ProductFetcher.Body)
    requires q != ""
    ensures ProductFetcher.ProductQuery(params, SearchArgs(q), p)
  {
    params := map[ProductFetcher.Page := JNum(p), ProductFetcher.PageSize := JNum(PAGE_SIZE),
                  ProductFetcher.FullData := JBool(true), ProductFetcher.Query := JStr(q)];
  }

  /** `hasMore` after a page: it came back full. */
  predicate FullPage(products: seq<Product>) {
    |products| == PAGE_SIZE
  }

  /**
   * How a search request ends: its promise rejects (a failure whose
   * handling throws again), or it resolves and `res?.results?.products`
   * is `products`, `None` when missing or falsy.
   */
  datatype SearchReply = Rejected | Settled(products: Option<seq<Product>>)

  /** Where the full search page was asked for: `/products?query=` and the encoded query. */
  datatype Navigation = SearchPage(query: string)

  class Modal {
    var query: string
    var results: seq<Product>
    var loading: bool
    var page: int
    var hasMore: bool
    var loadingNext: bool
    /** The bodies posted to the list endpoint, in order. */
    var sent: seq<ProductFetcher.Body>
    /** How often `onClose` was called. */
    var closeCalls: nat
    /** The pages `router.push` was sent to, in order. */
    var navigations: seq<Navigation>

    /** The initial state of the component. */
    constructor ()
      ensures query == "" && results == [] && !loading && page == 1 && hasMore && !loadingNext
      ensures sent == [] && closeCalls == 0 && navigations == []
    {
      query := "";
      results := [];
      loading := false;
      page := 1;
      hasMore := true;
      loadingNext := false;
      sent := [];
      closeCalls := 0;
      navigations := [];
    }

    /**
     * The first half of `fetchProducts(q, p)`: an empty query clears the
     * results without a request; otherwise the flag for page 1 or for a
     * later page is set and the request is sent.
     */
    method StartFetch(q: string, p: int) returns (requested: bool)
      modifies this
      ensures requested <==> q != ""
      ensures !requested ==>
        results == [] && !hasMore && sent == old(sent) && loading == old(loading) && loadingNext == old(loadingNext)
      ensures requested ==>
        results == old(results) && hasMore == old(hasMore) &&
        (p == 1 ==> loading && loadingNext == old(loadingNext)) &&
        (p != 1 ==> loadingNext && loading == old(loading)) &&
        |sent| == |old(sent)| + 1 && sent[..|old(sent)|] == old(sent) &&
        ProductFetcher.ProductQuery(sent[|sent| - 1], SearchArgs(q), p)
      ensures query == old(query) && page == old(page) && closeCalls == old(closeCalls) && navigations == old(navigations)
    {
      if q == "" {
        results := [];
        hasMore := false;
        return false;
      }
      if p == 1 {
        loading := true;
      } else {
        loadingNext := true;
      }
      var params := SearchBody(q, p);
      sent := sent + [params];
      return true;
    }

    /**
     * The second half: `res?.results?.products || []`, so a failed or
     * empty reply (`None`) reads as no products; the page is appended or
     * replaces the results and both flags are cleared.
     */
    method FinishFetch(append: bool, reply: Option<seq<Product>>)
      modifies this
      ensures var got := reply.GetOr([]);
        results == (if append then old(results) + got else got) && (hasMore <==> FullPage(got))
      ensures !loading && !loadingNext
      ensures query == old(query) && page == old(page) && sent == old(sent)
      ensures closeCalls == old(closeCalls) && navigations == old(navigations)
    {
      var got := reply.GetOr([]);
      results := if append then results + got else got;
      hasMore := |got| == PAGE_SIZE;
      loading := false;
      loadingNext := false;
    }

    /**
     * `fetchProducts(q, p, append)`, taken as ending with `reply` at once. A
     * rejected request throws at the `await`, so the flag set for it stays
     * set and nothing is settled.
     */
    method FetchProducts(q: string, p: int, append: bool, reply: SearchReply)
      modifies this
      ensures q == "" ==>
        results == [] && !hasMore && sent == old(sent) && loading == old(loading) && loadingNext == old(loadingNext)
      ensures q != "" ==>
        |sent| == |old(sent)| + 1 && sent[..|old(sent)|] == old(sent) &&
        ProductFetcher.ProductQuery(sent[|sent| - 1], SearchArgs(q), p)
      ensures q != "" && reply.Settled? ==>
        results == (if append then old(results) + reply.products.GetOr([]) else reply.products.GetOr([])) &&
        (hasMore <==> FullPage(reply.products.GetOr([]))) && !loading && !loadingNext
      ensures q != "" && reply.Rejected? ==>
        results == old(results) && hasMore == old(hasMore) &&
        (p == 1 ==> loading && loadingNext == old(loadingNext)) &&
        (p != 1 ==> loadingNext && loading == old(loading))
      ensures query == old(query) && page == old(page) && closeCalls == old(closeCalls) && navigations == old(navigations)
    {
      var requested := StartFetch(q, p);
      if requested && reply.Settled? {
        FinishFetch(append, reply.products);
      }
    }

    /**
     * The scroll handler near the bottom of the list: the next page of the
     * current query is appended, only when more remain and no later page
     * is loading. After a rejected next page `loadingNext` stays set, so
     * every later scroll does nothing.
     */
    method Scroll(nearBottom: bool, reply: SearchReply)
      modifies this
      ensures !(nearBottom && old(hasMore) && !old(loadingNext)) ==>
        results == old(results) && page == old(page) && sent == old(sent) && hasMore == old(hasMore) &&
        loadingNext == old(loadingNext)
      ensures nearBottom && old(hasMore) && !old(loadingNext) ==>
        page == old(page) + 1 &&
        (query != "" ==>
          |sent| == |old(sent)| + 1 && ProductFetcher.ProductQuery(sent[|sent| - 1], SearchArgs(query), page)) &&
        (query != "" && reply.Settled? ==> results == old(results) + reply.products.GetOr([]) && !loadingNext) &&
        (query != "" && reply.Rejected? ==> results == old(results) && (page != 1 ==> loadingNext) && (page == 1 ==> loading)) &&
        (query == "" ==> results == [] && !hasMore && sent == old(sent))
      ensures query == old(query)
    {
      if nearBottom && hasMore && !loadingNext {
        var nextPage := page + 1;
        page := nextPage;
        FetchProducts(query, nextPage, true, reply);
      }
    }

    /**
     * The effect run when the query changes: page 1 of the new query, or no
     * results for an empty one. A rejected page 1 leaves `loading` set.
     */
    method QueryEffect(reply: SearchReply)
      modifies this
      ensures query == old(query)
      ensures query != "" ==>
        page == 1 && |sent| == |old(sent)| + 1 && ProductFetcher.ProductQuery(sent[|sent| - 1], SearchArgs(query), 1)
      ensures query != "" && reply.Settled? ==>
        results == reply.products.GetOr([]) && (hasMore <==> FullPage(reply.products.GetOr([]))) && !loading
      ensures query != "" && reply.Rejected? ==> results == old(results) && loading
      ensures query == "" ==> results == [] && !hasMore && page == old(page) && sent == old(sent)
    {
      if query != "" {
        page := 1;
        FetchProducts(query, 1, false, reply);
      } else {
        results := [];
        hasMore := false;
      }
    }

    /** `handleInput`: a new text re-runs the query effect; the same text changes nothing. */
    method Input(value: string, reply: SearchReply)
      modifies this
      ensures query == value
      ensures value == old(query) ==> results == old(results) && hasMore == old(hasMore) && sent == old(sent)
      ensures value != old(query) && value != "" ==>
        page == 1 && |sent| == |old(sent)| + 1 && ProductFetcher.ProductQuery(sent[|sent| - 1], SearchArgs(value), 1)
      ensures value != old(query) && value != "" && reply.Settled? ==> results == reply.products.GetOr([]) && !loading
      ensures value != old(query) && value != "" && reply.Rejected? ==> results == old(results) && loading
      ensures value != old(query) && value == "" ==> results == [] && !hasMore && sent == old(sent)
    {
      if value != query {
        query := value;
        QueryEffect(reply);
      }
    }

    /** The reset effect run when the modal opens. */
    method Reset()
      modifies this
      ensures query == "" && results == [] && page == 1 && hasMore
      ensures loading == old(loading) && loadingNext == old(loadingNext) && sent == old(sent)
      ensures closeCalls == old(closeCalls) && navigations == old(navigations)
    {
      query := "";
      results := [];
      page := 1;
      hasMore := true;
    }

    /**
     * Opening the modal: the reset, then the query effect when the reset
     * changed the query. After a non-empty query the effect clears
     * `hasMore` again; after an empty one it stays set.
     */
    method Open()
      modifies this
      ensures query == "" && results == [] && page == 1 && sent == old(sent)
      ensures hasMore <==> old(query) == ""
    {
      var previous := query;
      Reset();
      if previous != "" {
        QueryEffect(Settled(None));
      }
    }

    /** `goToSearchPage`: only a non-empty query closes the modal and opens the full search page. */
    method GoToSearchPage()
      modifies this
      ensures query != "" ==> closeCalls == old(closeCalls) + 1 && navigations == old(navigations) + [SearchPage(query)]
      ensures query == "" ==> closeCalls == old(closeCalls) && navigations == old(navigations)
      ensures query == old(query) && results == old(results) && sent == old(sent)
    {
      if query != "" {
        closeCalls := closeCalls + 1;
        navigations := navigations + [SearchPage(query)];
      }
    }

    /** `handleKeyDown`: Enter goes to the search page, any other key does nothing. */
    method KeyDown(key: string)
      modifies this
      ensures key == "Enter" && query != "" ==> navigations == old(navigations) + [SearchPage(query)]
      ensures key != "Enter" || query == "" ==> navigations == old(navigations) && closeCalls == old(closeCalls)
    {
      if key == "Enter" {
        GoToSearchPage();
      }
    }
  }
}
