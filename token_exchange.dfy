/**
 * The login step of the request layer (`exchangeCodeForTokens` in
 * src/lib/api-service.ts): the authorization code is traded for the tokens
 * at the storefront's own route; then the tokens are stored, the analytics
 * are merged, and the cart and the wishlist providers re-read the store.
 */
module TokenExchange {
  import opened Wrappers
  import opened JsonDoc
  import opened ClientStore
  import opened ApiService
  import Cart
  import Wishlist
  import Analytics
  import CartContext
  import WishlistContext

  const EXCHANGE_ROUTE: string := "/api/oauth/exchange"
  const EXCHANGE_FAILED: string := "OAuth солилцооны үед алдаа гарлаа."

  function ExchangeRequest(code: string): Request {
    Request(Post, EXCHANGE_ROUTE, Some(JObj([("code", JStr(code))])), None)
  }

  /** A reply the login goes on with: a body that is not `null` (reading a field of `null` throws). */
  predicate Accepted(reply: Reply) {
    reply.Ok? && !reply.data.JNull?
  }

  /** The cookie jar once the tokens of an exchange reply's body are stored. */
  function WithTokens(cookies: map<string, Cookie>, data: Json, now: int): map<string, Cookie> {
    cookies
      [ACCESS_TOKEN := Cookie(AsText(Field(data, "access_token")), ExpiryAt(now, ACCESS_TOKEN_EXPIRY))]
      [USERNAME := Cookie(AsText(Field(data, "username")), ExpiryAt(now, REFRESH_TOKEN_EXPIRY))]
  }

  /**
   * The body of an accepted exchange: the tokens stored, then the analytics
   * merged from the store that results. A truthy token stays stored with
   * the user name unless the session ends, and every request of the merge
   * carries it.
   */
  method StoreTokensAndMerge(s: Session, data: Json)
    requires s.Valid()
    modifies s, s.store
    ensures s.Valid() && (old(s.loggingOut) ==> s.loggingOut)
    ensures old(s.sent) <= s.sent && old(s.toasts) <= s.toasts
    ensures s.store.browser == old(s.store.browser) && s.store.now == old(s.store.now)
    ensures !AnalyticsEnabled(s.env) ==>
      s.sent == old(s.sent) && s.store.cookies == WithTokens(old(s.store.cookies), data, s.store.now) &&
      s.store.local == old(s.store.local) && s.toasts == old(s.toasts) && s.replies == old(s.replies)
    ensures AnalyticsEnabled(s.env) ==>
      Analytics.AnalyticCookie(s.store).None? && Analytics.AnalyticLocal(s.store).None? &&
      s.store.local == if s.store.browser then old(s.store.local) - {ANALYTIC_ID_COOKIE_NAME} else old(s.store.local)
    ensures AnalyticsEnabled(s.env) && s.loggingOut == old(s.loggingOut) ==>
      var run := Analytics.MergeRunOf(s.env, None, s.store.browser, old(s.refreshing), old(s.replies),
                                      WithTokens(old(s.store.cookies), data, s.store.now), s.store.now);
      s.sent == old(s.sent) + Analytics.RunRequests(run) &&
      s.replies == run.pulls.wishlist.replies && s.store.cookies == run.pulls.wishlist.cookies && s.toasts == old(s.toasts)
    ensures s.loggingOut == old(s.loggingOut) && Truthy(Field(data, "access_token")) ==>
      s.store.GetAccessToken() == Some(AsText(Field(data, "access_token"))) &&
      USERNAME in s.store.cookies &&
      s.store.cookies[USERNAME] == Cookie(AsText(Field(data, "username")), ExpiryAt(s.store.now, REFRESH_TOKEN_EXPIRY)) &&
      forall i | |old(s.sent)| <= i < |s.sent| :: s.sent[i].bearer == Some(AsText(Field(data, "access_token")))
  {
    var token := Field(data, "access_token");
    s.store.SetAccessToken(AsText(token));
    s.store.SetUsername(AsText(Field(data, "username")));
    assert s.store.cookies == WithTokens(old(s.store.cookies), data, s.store.now);
    if Truthy(token) {
      TokensSurviveMerge(s.env, s.store.browser, s.refreshing, s.replies, old(s.store.cookies), data, s.store.now);
    }
    ghost var _, _, _, _ := Analytics.MergeAnalytics(s, None);
  }

  /**
   * With a truthy token from the exchange, the merge that follows keeps it
   * and the user name stored, and sends every request with it.
   */
  lemma TokensSurviveMerge(env: Env, browser: bool, refreshing: bool, replies: seq<Reply>,
                           cookies: map<string, Cookie>, data: Json, now: int)
    requires Truthy(Field(data, "access_token"))
    ensures var run := Analytics.MergeRunOf(env, None, browser, refreshing, replies, WithTokens(cookies, data, now), now);
      var fin := run.pulls.wishlist.cookies;
      AccessTokenIn(fin, now) == Some(AsText(Field(data, "access_token"))) &&
      USERNAME in fin && fin[USERNAME] == Cookie(AsText(Field(data, "username")), ExpiryAt(now, REFRESH_TOKEN_EXPIRY)) &&
      forall i | 0 <= i < |Analytics.RunRequests(run)| :: Analytics.RunRequests(run)[i].bearer == Some(AsText(Field(data, "access_token")))
  {
    var stored := WithTokens(cookies, data, now);
    var tok := AsText(Field(data, "access_token"));
    assert AccessTokenIn(stored, now) == Some(tok);
    assert stored[USERNAME] == Cookie(AsText(Field(data, "username")), ExpiryAt(now, REFRESH_TOKEN_EXPIRY));
    Analytics.MergeRunWithStoredToken(env, None, browser, refreshing, replies, stored, now, tok);
    var fin := Analytics.MergeRunOf(env, None, browser, refreshing, replies, stored, now).pulls.wishlist.cookies;
    KeptKey(stored, fin, {ANALYTIC_ID_COOKIE_NAME, CART_COOKIE_NAME, WISHLIST_COOKIE_NAME}, USERNAME);
  }

  /** A key outside the written ones keeps its cookie. */
  lemma KeptKey(a: map<string, Cookie>, b: map<string, Cookie>, keys: set<string>, k: string)
    requires KeptOutside(a, b, keys) && k !in keys && k in a
    ensures k in b && b[k] == a[k]
  {
  }

  /**
   * `exchangeCodeForTokens(code, refreshCart, refreshWishlist)`. `ok` is
   * whether the returned promise resolves; a rejected exchange shows one
   * toast and changes nothing else.
   */
  method ExchangeCodeForTokens(s: Session, code: string, carts: CartContext.CartProvider, wishes: WishlistContext.WishlistProvider)
    returns (ok: bool)
    requires s.Valid()
    requires carts.store == s.store && wishes.store == s.store
    modifies s, s.store, carts, wishes
    ensures s.Valid()
    ensures old(s.sent) + [ExchangeRequest(code)] <= s.sent
    ensures ok <==> Accepted(old(s.NextReply()))
    ensures !ok ==>
      s.toasts == old(s.toasts) + [EXCHANGE_FAILED] && s.sent == old(s.sent) + [ExchangeRequest(code)] &&
      s.store.cookies == old(s.store.cookies) && s.store.local == old(s.store.local) &&
      s.replies == Tail(old(s.replies)) && s.loggingOut == old(s.loggingOut) && s.refreshing == old(s.refreshing) &&
      s.redirects == old(s.redirects) &&
      carts.cart == old(carts.cart) && wishes.wishlist == old(wishes.wishlist)
    ensures ok ==> carts.cart == Cart.GetCart(s.store) && wishes.wishlist == Wishlist.GetWishlist(s.store)
    ensures ok && !AnalyticsEnabled(s.env) ==>
      s.sent == old(s.sent) + [ExchangeRequest(code)] &&
      s.store.cookies == WithTokens(old(s.store.cookies), old(s.NextReply()).data, s.store.now) &&
      s.store.local == old(s.store.local)
    ensures ok && AnalyticsEnabled(s.env) ==>
      Analytics.AnalyticCookie(s.store).None? && Analytics.AnalyticLocal(s.store).None? &&
      s.store.local == if s.store.browser then old(s.store.local) - {ANALYTIC_ID_COOKIE_NAME} else old(s.store.local)
    // With analytics on and the session not ended, the merge follows the exchange, starting from the stored tokens.
    ensures ok && AnalyticsEnabled(s.env) && s.loggingOut == old(s.loggingOut) ==>
      var run := Analytics.MergeRunOf(s.env, None, s.store.browser, old(s.refreshing), Tail(old(s.replies)),
                                      WithTokens(old(s.store.cookies), old(s.NextReply()).data, s.store.now), s.store.now);
      s.sent == old(s.sent) + [ExchangeRequest(code)] + Analytics.RunRequests(run) &&
      s.replies == run.pulls.wishlist.replies && s.store.cookies == run.pulls.wishlist.cookies && s.toasts == old(s.toasts)
    // A truthy token from the exchange stays stored with the user name, and every later request carries it.
    ensures ok && s.loggingOut == old(s.loggingOut) && Truthy(Field(old(s.NextReply()).data, "access_token")) ==>
      var data := old(s.NextReply()).data;
      s.store.GetAccessToken() == Some(AsText(Field(data, "access_token"))) &&
      USERNAME in s.store.cookies &&
      s.store.cookies[USERNAME] == Cookie(AsText(Field(data, "username")), ExpiryAt(s.store.now, REFRESH_TOKEN_EXPIRY)) &&
      forall i | |old(s.sent)| < i < |s.sent| :: s.sent[i].bearer == Some(AsText(Field(data, "access_token")))
  {
    var reply := s.Exchange(ExchangeRequest(code));
    if !Accepted(reply) {
      s.toasts := s.toasts + [EXCHANGE_FAILED];
      return false;
    }
    StoreTokensAndMerge(s, reply.data);
    var _ := carts.RefreshCart();
    var _ := wishes.RefreshWishlist();
    return true;
  }
}
