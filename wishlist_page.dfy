/**
 * The wishlist page (src/app/wishlist/page.tsx): the effect that pulls the
 * server's wishlist for a signed-in user and then asks for the saved
 * products by slug, the price summary of each product and the date it was
 * saved.
 */
module WishlistPage {
  import opened Wrappers
  import opened Catalog
  import opened JsonDoc
  import opened ClientStore
  import opened ApiService
  import Listing
  import Analytics
  import Wishlist

  const PRODUCT_LIST_ENDPOINT: string := "/product/list/"

  /** `{ slugs }`: the slugs of the wishlist, in order. */
  function ListBody(wishlist: seq<Wishlist.WishlistItem>): Json {
    JObj([("slugs", Analytics.SlugsJson(Wishlist.Slugs(wishlist)))])
  }

  /** The product list request of the page: a public POST of the slugs, under the store's slug. */
  function ListRequest(env: Env, wishlist: seq<Wishlist.WishlistItem>): Request {
    MakeRequest(Post, PublicUrl(env, PRODUCT_LIST_ENDPOINT, true), Some(ListBody(wishlist)), None)
  }

  /** The wishlist pull of the page read off the state it starts in: none for a guest. */
  function SavedPull(env: Env, browser: bool, signedIn: bool, refreshing: bool, replies: seq<Reply>,
                     cookies: map<string, Cookie>, now: int): TokenCall
  {
    if signedIn then Analytics.WishlistPullOf(env, browser, refreshing, replies, cookies, now)
    else TokenCall(Outcome(Resolved(JNull), [], false), [], replies, cookies, refreshing)
  }

  /** `if (isLoggedIn()) await updateLocalWishlistFromServer()`. */
  method PullIfSignedIn(s: Session)
    requires s.Valid()
    modifies s, s.store
    ensures s.Valid() && old(s.sent) <= s.sent
    ensures s.store.browser == old(s.store.browser) && s.store.now == old(s.store.now)
    ensures !old(s.store.IsLoggedIn()) ==> unchanged(s) && unchanged(s.store)
    ensures var p := SavedPull(s.env, s.store.browser, old(s.store.IsLoggedIn()), old(s.refreshing), old(s.replies),
                               old(s.store.cookies), s.store.now);
      old(s.sent) + p.requests <= s.sent &&
      (s.loggingOut == old(s.loggingOut) ==> s.sent == old(s.sent) + p.requests && s.replies == p.replies && s.store.cookies == p.cookies) &&
      (old(s.store.IsLoggedIn()) && s.store.browser && Analytics.ServerWishlist(p.outcome.result).Some? ==>
         Wishlist.GetWishlist(s.store) == Analytics.ServerWishlist(p.outcome.result).value)
  {
    if s.store.IsLoggedIn() {
      ghost var _, _ := Analytics.UpdateLocalWishlistFromServer(s);
    }
  }

  class SavedProducts {
    const session: Session
    var products: seq<Product>
    var loading: bool

    constructor (session: Session)
      ensures this.session == session && products == [] && !loading
    {
      this.session := session;
      products := [];
      loading := false;
    }

    /**
     * `fetchProducts`, run whenever the context's wishlist changes. A
     * signed-in user's server wishlist is pulled into the store first; the
     * products are then asked for by the slugs of the wishlist the effect
     * was started with, in order. An empty wishlist asks for nothing and
     * keeps the old products. `listed` is how the product request settled:
     * a truthy body gives `decoded`, anything else none, and a rejection
     * escapes the effect with `loading` still set.
     */
    method FetchProducts(wishlist: seq<Wishlist.WishlistItem>, decoded: seq<Product>) returns (ghost listed: Resolution)
      requires session.Valid()
      modifies this, session, session.store
      ensures session.Valid() && old(session.sent) <= session.sent
      ensures !old(session.store.IsLoggedIn()) ==> session.store.cookies == old(session.store.cookies)
      ensures |wishlist| == 0 ==> products == old(products) && !loading
      ensures |wishlist| > 0 ==>
        |session.sent| > 0 && session.sent[|session.sent| - 1] == ListRequest(session.env, wishlist) &&
        (loading <==> listed.Rejected?) &&
        (listed.Rejected? ==> products == old(products)) &&
        (listed.Resolved? ==> products == if Truthy(listed.value) then decoded else [])
      // The pull comes first, then the product request, which reads the next reply.
      ensures var p := SavedPull(session.env, session.store.browser, old(session.store.IsLoggedIn()), old(session.refreshing),
                                 old(session.replies), old(session.store.cookies), session.store.now);
        old(session.sent) + p.requests <= session.sent &&
        (old(session.store.IsLoggedIn()) && session.store.browser && Analytics.ServerWishlist(p.outcome.result).Some? ==>
           Wishlist.GetWishlist(session.store) == Analytics.ServerWishlist(p.outcome.result).value) &&
        (session.loggingOut == old(session.loggingOut) ==>
           session.store.cookies == p.cookies &&
           (|wishlist| == 0 ==> session.sent == old(session.sent) + p.requests) &&
           (|wishlist| > 0 ==>
              session.sent == old(session.sent) + p.requests + [ListRequest(session.env, wishlist)] &&
              listed == PublicCall(session.env, session.store.browser, "POST", PRODUCT_LIST_ENDPOINT,
                                   Some(ListBody(wishlist)), true, false, Head(p.replies)).1.result))
    {
      loading := true;
      listed := Resolved(JNull);
      PullIfSignedIn(session);
      if |wishlist| == 0 {
        loading := false;
        return;
      }
      listed := ListProducts(wishlist, decoded);
    }

    /**
     * The product request of `fetchProducts` and what its settling sets: a
     * truthy body gives `decoded`, anything else none; a rejection leaves
     * both fields alone.
     */
    method ListProducts(wishlist: seq<Wishlist.WishlistItem>, decoded: seq<Product>) returns (ghost listed: Resolution)
      modifies this, session
      ensures session.sent == old(session.sent) + [ListRequest(session.env, wishlist)] && session.replies == Tail(old(session.replies))
      ensures listed == PublicCall(session.env, session.store.browser, "POST", PRODUCT_LIST_ENDPOINT,
                                   Some(ListBody(wishlist)), true, false, old(session.NextReply())).1.result
      ensures session.loggingOut == old(session.loggingOut) && session.redirects == old(session.redirects)
      ensures listed.Rejected? ==> products == old(products) && loading == old(loading)
      ensures listed.Resolved? ==> products == (if Truthy(listed.value) then decoded else []) && !loading
    {
      LiteralMethods();
      var response := session.SendPublic("POST", PRODUCT_LIST_ENDPOINT, Some(ListBody(wishlist)), true, false);
      listed := response;
      if response.Rejected? {
        return;
      }
      products := if Truthy(response.value) then decoded else [];
      loading := false;
    }
  }

  /** The price summary of a saved product: `getPriceInfo` over `product.variants || []`. */
  function PriceSummary(p: Product): Option<Listing.PriceInfo> {
    Listing.GetPriceInfo(p.variants)
  }

  /** The page's summary follows the listing's rules: list-price and effective-price bounds, and the discount flags. */
  lemma PriceSummarySpec(p: Product)
    ensures PriceSummary(p).None? <==> |p.variants| == 0
    ensures PriceSummary(p).Some? ==>
      var info := PriceSummary(p).value;
      info.minPrice <= info.maxPrice && info.lowest <= info.highest &&
      (forall k | 0 <= k < |p.variants| :: info.lowest <= EffectivePrice(p.variants[k].price, p.variants[k].discountPrice)) &&
      (info.hasDiscount <==> exists k | 0 <= k < |p.variants| :: p.variants[k].discountPrice.Some?) &&
      (info.maxSale.None? <==> !info.hasDiscount)
  {
    Listing.PriceInfoSpec(p.variants);
    if |p.variants| > 0 {
      var info := PriceSummary(p).value;
      assert info.lowest <= EffectivePrice(p.variants[0].price, p.variants[0].discountPrice) <= info.highest;
    }
  }

  /** `wishlist.find(w => w.slug === slug)`. */
  function FindItem(wishlist: seq<Wishlist.WishlistItem>, slug: string): (r: Option<Wishlist.WishlistItem>)
    ensures r.Some? ==> r.value in wishlist && r.value.slug == slug
    ensures r.None? <==> forall k | 0 <= k < |wishlist| :: wishlist[k].slug != slug
    ensures r.Some? ==> exists k | 0 <= k < |wishlist| :: wishlist[k] == r.value && forall j | 0 <= j < k :: wishlist[j].slug != slug
  {
    if |wishlist| == 0 then None
    else if wishlist[0].slug == slug then Some(wishlist[0])
    else
      var r := FindItem(wishlist[1..], slug);
      if r.Some? then
        var k :| 0 <= k < |wishlist[1..]| && wishlist[1..][k] == r.value && forall j | 0 <= j < k :: wishlist[1..][j].slug != slug;
        assert wishlist[k + 1] == r.value && forall j | 0 <= j < k + 1 :: wishlist[j].slug != slug;
        r
      else r
  }

  /** The saved date shown for a product: the `added_at` of its wishlist item, when that is not empty. */
  function SavedDate(wishlist: seq<Wishlist.WishlistItem>, slug: string): Option<string> {
    match FindItem(wishlist, slug)
    case Some(item) => if item.addedAt != "" then Some(item.addedAt) else None
    case None => None
  }

  /** In a wishlist with unique slugs, the date shown is that of the product's own item. */
  lemma SavedDateOfItem(wishlist: seq<Wishlist.WishlistItem>, k: int)
    requires Wishlist.UniqueSlugs(wishlist) && 0 <= k < |wishlist|
    ensures SavedDate(wishlist, wishlist[k].slug) == (if wishlist[k].addedAt != "" then Some(wishlist[k].addedAt) else None)
  {
    var r := FindItem(wishlist, wishlist[k].slug);
    var j :| 0 <= j < |wishlist| && wishlist[j] == r.value;
    assert j == k;
  }
}
