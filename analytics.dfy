/**
 * Analytics (src/lib/analytics.ts): the analytic id mirrored between a
 * cookie and local storage, the pull of the server's cart and wishlist into
 * the local copies, the merge after login, and the routing of cart and
 * wishlist posts between the authenticated and the public endpoints.
 */
module Analytics {
  import opened Wrappers
  import opened JsonDoc
  import opened JsNumber
  import opened ClientStore
  import opened ApiService
  import Cart
  import Wishlist

  const ANALYTIC_GET: string := "/analytic/get/"
  const MERGE_PATH: string := "/provider/analytics/merge/"
  const CART_GET_PATH: string := "/provider/analytics/cart/get/"
  const CART_POST_PATH: string := "/provider/analytics/cart/post/"
  const WISHLIST_GET_PATH: string := "/provider/analytics/wishlist/get/"
  const WISHLIST_POST_PATH: string := "/provider/analytics/wishlist/post/"
  const PUBLIC_CART_POST: string := "/cart/post/"
  const PUBLIC_WISHLIST_POST: string := "/wishlist/post/"

  /** The value a cookie or local-storage read hands to `JSON.stringify`. */
  function TextJson(t: Text): Json {
    match t
    case Raw(s) => JStr(s)
    case Encoded(d) => d
    case Plain(d) => d
  }

  /** `{uuid: id}`, where an `undefined` id leaves the field out. */
  function UuidField(id: Option<Text>): (f: seq<(string, Json)>)
    ensures id.None? <==> f == []
  {
    if id.None? then [] else [("uuid", TextJson(id.value))]
  }

  /** `if (id)`: a read that found a non-empty value. */
  predicate Present(id: Option<Text>) {
    id.Some? && TextTruthy(id.value)
  }

  function AnalyticCookie(store: Store): Option<Text>
    reads store
  {
    store.GetCookie(ANALYTIC_ID_COOKIE_NAME)
  }

  function AnalyticLocal(store: Store): Option<Text>
    reads store
  {
    store.GetLocalStorage(ANALYTIC_ID_COOKIE_NAME)
  }

  // ---------------------------------------------------------------------
  // getOrCreateAnalyticId

  /** Where `getOrCreateAnalyticId` takes the id from. */
  datatype IdSource = NoWindow | FromCookie(id: Text) | FromLocal(id: Text) | FromServer

  function IdSourceOf(store: Store): (src: IdSource)
    reads store
    ensures src.FromCookie? ==> Present(AnalyticCookie(store)) && src.id == AnalyticCookie(store).value
    ensures src.FromLocal? ==> !Present(AnalyticCookie(store)) && Present(AnalyticLocal(store)) && src.id == AnalyticLocal(store).value
    ensures src.FromServer? <==> store.browser && !Present(AnalyticCookie(store)) && !Present(AnalyticLocal(store))
    ensures src.NoWindow? <==> !store.browser
  {
    if !store.browser then NoWindow
    else if Present(AnalyticCookie(store)) then FromCookie(AnalyticCookie(store).value)
    else if Present(AnalyticLocal(store)) then FromLocal(AnalyticLocal(store).value)
    else FromServer
  }

  /** `res?.uuid` when it is truthy. */
  function IssuedId(reply: Reply): (u: Option<Json>)
    ensures u.Some? ==> Truthy(u.value)
  {
    if !reply.Ok? then None
    else match OptProp(reply.data, "uuid")
      case Found(v) => if Truthy(v) then Some(v) else None
      case _ => None
  }

  function IdRequest(env: Env): Request {
    MakeRequest(Get, PublicUrl(env, ANALYTIC_GET, true), None, None)
  }

  /** The two stores after `id` was written to both. */
  predicate Mirrored(store: Store, id: Text)
    reads store
  {
    AnalyticCookie(store) == Some(id) && AnalyticLocal(store) == Some(id)
  }

  /** The id `getOrCreateAnalyticId` hands out from `src`, where `reply` answers a request to the server. */
  function SourcedId(src: IdSource, reply: Reply): Option<Text> {
    match src
    case NoWindow => None
    case FromCookie(c) => Some(c)
    case FromLocal(l) => Some(l)
    case FromServer => match IssuedId(reply) case Some(u) => Some(AsText(u)) case None => None
  }

  /**
   * The cookies after `getOrCreateAnalyticId` took its id from `src`: an id
   * handed out is live in the id cookie, and no other cookie changes.
   */
  function SourcedCookies(src: IdSource, reply: Reply, cookies: map<string, Cookie>, now: int): (c: map<string, Cookie>)
    ensures KeptOutside(cookies, c, {ANALYTIC_ID_COOKIE_NAME})
    ensures SourcedId(src, reply).Some? ==> CookieIn(c, now, ANALYTIC_ID_COOKIE_NAME) == SourcedId(src, reply)
    ensures SourcedId(src, reply).None? ==> c == cookies
  {
    match SourcedId(src, reply)
    case Some(id) => cookies[ANALYTIC_ID_COOKIE_NAME := Cookie(id, ExpiryAt(now, ANALYTIC_ID_EXPIRY))]
    case None => cookies
  }

  /**
   * Local storage after `getOrCreateAnalyticId` took its id from `src`: a
   * cookie's or the server's id is copied there, an id read from local
   * storage is left as it is, and no other key changes.
   */
  function SourcedLocal(src: IdSource, reply: Reply, local: map<string, Text>): (l: map<string, Text>)
    ensures l - {ANALYTIC_ID_COOKIE_NAME} == local - {ANALYTIC_ID_COOKIE_NAME}
    ensures SourcedId(src, reply).Some? && !src.FromLocal? ==>
      ANALYTIC_ID_COOKIE_NAME in l && l[ANALYTIC_ID_COOKIE_NAME] == SourcedId(src, reply).value
    ensures src.FromLocal? || SourcedId(src, reply).None? ==> l == local
  {
    match src
    case FromCookie(c) => local[ANALYTIC_ID_COOKIE_NAME := c]
    case FromServer => (match IssuedId(reply) case Some(u) => local[ANALYTIC_ID_COOKIE_NAME := AsText(u)] case None => local)
    case _ => local
  }

  /** Whether `ensureAnalyticId` calls `getOrCreateAnalyticId`: a guest without an id cookie. */
  predicate WantsId(store: Store)
    reads store
  {
    !Present(AnalyticCookie(store)) && !store.IsLoggedIn()
  }

  /** Whether `ensureAnalyticId` asks the server for an id: a guest with no id in either store. */
  predicate LooksUpId(store: Store)
    reads store
  {
    WantsId(store) && IdSourceOf(store).FromServer?
  }

  method GetOrCreateAnalyticId(s: Session) returns (id: Option<Text>)
    requires s.Valid()
    modifies s, s.store
    ensures s.Valid()
    ensures s.store.browser == old(s.store.browser) && s.store.now == old(s.store.now)
    ensures s.refreshing == old(s.refreshing) && s.loggingOut == old(s.loggingOut)
    ensures s.toasts == old(s.toasts) && s.redirects == old(s.redirects)
    ensures match old(IdSourceOf(s.store))
      case NoWindow =>
        id.None? && s.sent == old(s.sent) && s.replies == old(s.replies) &&
        s.store.cookies == old(s.store.cookies) && s.store.local == old(s.store.local)
      case FromCookie(c) =>
        id == Some(c) && s.sent == old(s.sent) && s.replies == old(s.replies) &&
        s.store.cookies == old(s.store.cookies)[ANALYTIC_ID_COOKIE_NAME := Cookie(c, ExpiryAt(s.store.now, ANALYTIC_ID_EXPIRY))] &&
        s.store.local == old(s.store.local)[ANALYTIC_ID_COOKIE_NAME := c]
      case FromLocal(l) =>
        id == Some(l) && s.sent == old(s.sent) && s.replies == old(s.replies) &&
        s.store.cookies == old(s.store.cookies)[ANALYTIC_ID_COOKIE_NAME := Cookie(l, ExpiryAt(s.store.now, ANALYTIC_ID_EXPIRY))] &&
        s.store.local == old(s.store.local)
      case FromServer =>
        s.sent == old(s.sent) + [IdRequest(s.env)] && s.replies == Tail(old(s.replies)) &&
        match IssuedId(old(s.NextReply()))
        case Some(u) =>
          id == Some(AsText(u)) &&
          s.store.cookies == old(s.store.cookies)[ANALYTIC_ID_COOKIE_NAME := Cookie(AsText(u), ExpiryAt(s.store.now, ANALYTIC_ID_EXPIRY))] &&
          s.store.local == old(s.store.local)[ANALYTIC_ID_COOKIE_NAME := AsText(u)]
        case None =>
          id.None? && s.store.cookies == old(s.store.cookies) && s.store.local == old(s.store.local)
    // Whatever the source, an id handed out is then held by both stores.
    ensures id.Some? ==> Mirrored(s.store, id.value)
  {
    if !s.store.browser {
      return None;
    }
    var localId := AnalyticCookie(s.store);
    if Present(localId) {
      s.store.SetCookie(ANALYTIC_ID_COOKIE_NAME, localId.value, ANALYTIC_ID_EXPIRY);
      s.store.SetLocalStorage(ANALYTIC_ID_COOKIE_NAME, localId.value);
      return localId;
    }
    var localStorageId := AnalyticLocal(s.store);
    if Present(localStorageId) {
      s.store.SetCookie(ANALYTIC_ID_COOKIE_NAME, localStorageId.value, ANALYTIC_ID_EXPIRY);
      return localStorageId;
    }
    id := IssueAnalyticId(s);
  }

  /** The server branch of `getOrCreateAnalyticId`: a silent public GET, and an issued id kept in both stores. */
  method IssueAnalyticId(s: Session) returns (id: Option<Text>)
    requires s.Valid() && s.store.browser
    modifies s, s.store
    ensures s.Valid()
    ensures s.store.browser == old(s.store.browser) && s.store.now == old(s.store.now)
    ensures s.refreshing == old(s.refreshing) && s.loggingOut == old(s.loggingOut)
    ensures s.toasts == old(s.toasts) && s.redirects == old(s.redirects)
    ensures s.sent == old(s.sent) + [IdRequest(s.env)] && s.replies == Tail(old(s.replies))
    ensures match IssuedId(old(s.NextReply()))
      case Some(u) =>
        id == Some(AsText(u)) &&
        s.store.cookies == old(s.store.cookies)[ANALYTIC_ID_COOKIE_NAME := Cookie(AsText(u), ExpiryAt(s.store.now, ANALYTIC_ID_EXPIRY))] &&
        s.store.local == old(s.store.local)[ANALYTIC_ID_COOKIE_NAME := AsText(u)]
      case None =>
        id.None? && s.store.cookies == old(s.store.cookies) && s.store.local == old(s.store.local)
    ensures id.Some? ==> Mirrored(s.store, id.value)
  {
    var reply := s.NextReply();
    SilentShowsNothing(s.env, s.store.browser, "GET", ANALYTIC_GET, None, true, reply);
    LiteralMethods();
    var res := s.SendPublic("GET", ANALYTIC_GET, None, true, true);
    var uuid := OptProp(res.value, "uuid");
    if uuid.Found? && Truthy(uuid.v) {
      s.store.SetCookie(ANALYTIC_ID_COOKIE_NAME, AsText(uuid.v), ANALYTIC_ID_EXPIRY);
      s.store.SetLocalStorage(ANALYTIC_ID_COOKIE_NAME, AsText(uuid.v));
      return Some(AsText(uuid.v));
    }
    return None;
  }

  // ---------------------------------------------------------------------
  // The server copies

  /** `Number(item.price)`, with a missing price read as `undefined`, which is `NaN`. */
  function PriceOf(item: Json): Num {
    match Prop(item, "price") case Found(p) => NumberOf(p) case _ => NaN
  }

  /** `{sku, amount, price: Number(price)}` read back as a cart item, when it has that shape. */
  function ServerCartItem(item: Json): Option<Cart.CartItem> {
    var sku := Prop(item, "sku");
    var amount := Prop(item, "amount");
    var price := PriceOf(item);
    if sku.Found? && sku.v.JStr? && amount.Found? && amount.v.JNum? && price.Int?
    then Some(Cart.CartItem(sku.v.s, amount.v.n, price.i))
    else None
  }

  /**
   * `items.map(item => ({sku, amount, price: Number(item.price)}))` as the
   * cart reads it back; `None` where an element is `null` and the map throws.
   */
  function NormalizeCart(items: seq<Json>): (r: Option<seq<Cart.CartItem>>)
    ensures r.None? <==> exists k | 0 <= k < |items| :: items[k].JNull?
  {
    if |items| == 0 then Some([])
    else if items[0].JNull? then None
    else
      match NormalizeCart(items[1..])
      case None => assert items[1..][0] == items[1]; None
      case Some(rest) =>
        assert forall k | 1 <= k < |items| :: items[k] == items[1..][k - 1];
        match ServerCartItem(items[0])
        case Some(it) => Some([it] + rest)
        case None => Some(rest)
  }

  /** The cart a reply of `/cart/get/` replaces the local cart with, if any. */
  function ServerCart(r: Resolution): Option<seq<Cart.CartItem>> {
    if r.Rejected? || !Truthy(r.value) then None
    else match Prop(r.value, "items")
      case Found(JArr(items)) => NormalizeCart(items)
      case _ => None
  }

  /** `{slug, added_at}` read back as a wishlist item, when it has that shape. */
  function ServerWishlistItem(item: Json): Option<Wishlist.WishlistItem> {
    var slug := Prop(item, "slug");
    var at := Prop(item, "added_at");
    if slug.Found? && slug.v.JStr? && at.Found? && at.v.JStr?
    then Some(Wishlist.WishlistItem(slug.v.s, at.v.s))
    else None
  }

  function NormalizeWishlist(items: seq<Json>): (r: Option<seq<Wishlist.WishlistItem>>)
    ensures r.None? <==> exists k | 0 <= k < |items| :: items[k].JNull?
  {
    if |items| == 0 then Some([])
    else if items[0].JNull? then None
    else
      match NormalizeWishlist(items[1..])
      case None => assert items[1..][0] == items[1]; None
      case Some(rest) =>
        assert forall k | 1 <= k < |items| :: items[k] == items[1..][k - 1];
        match ServerWishlistItem(items[0])
        case Some(it) => Some([it] + rest)
        case None => Some(rest)
  }

  /** The wishlist a reply of `/wishlist/get/` replaces the local one with, if any. */
  function ServerWishlist(r: Resolution): Option<seq<Wishlist.WishlistItem>> {
    if r.Rejected? || !r.value.JArr? then None else NormalizeWishlist(r.value.items)
  }

  /** A cookie jar with the server's cart, if the reply holds one, written over it in a browser. */
  function WithServerCart(cookies: map<string, Cookie>, r: Resolution, browser: bool, now: int): map<string, Cookie> {
    if ServerCart(r).Some? && browser then cookies[CART_COOKIE_NAME := Cart.CartCookie(ServerCart(r).value, now)]
    else cookies
  }

  /** A cookie jar with the server's wishlist, if the reply holds one, written over it in a browser. */
  function WithServerWishlist(cookies: map<string, Cookie>, r: Resolution, browser: bool, now: int): map<string, Cookie> {
    if ServerWishlist(r).Some? && browser then cookies[WISHLIST_COOKIE_NAME := Wishlist.WishlistCookie(ServerWishlist(r).value, now)]
    else cookies
  }

  /**
   * `updateLocalCartFromServer()` read off the state it starts in: the
   * silent POST with the cookie's analytic id, and the server's cart
   * written over the cookies that call leaves.
   */
  function CartPullOf(env: Env, browser: bool, refreshing: bool, replies: seq<Reply>,
                      cookies: map<string, Cookie>, now: int): TokenCall
  {
    var c := TokenCallOf(refreshing, replies, cookies, now, "POST", env.apiUrl + CART_GET_PATH,
                         Some(JObj(UuidField(CookieIn(cookies, now, ANALYTIC_ID_COOKIE_NAME)))), true);
    c.(cookies := WithServerCart(c.cookies, c.outcome.result, browser, now))
  }

  /** `updateLocalWishlistFromServer()` read off the state it starts in. */
  function WishlistPullOf(env: Env, browser: bool, refreshing: bool, replies: seq<Reply>,
                          cookies: map<string, Cookie>, now: int): TokenCall
  {
    var c := TokenCallOf(refreshing, replies, cookies, now, "POST", env.apiUrl + WISHLIST_GET_PATH,
                         Some(JObj(UuidField(CookieIn(cookies, now, ANALYTIC_ID_COOKIE_NAME)))), true);
    c.(cookies := WithServerWishlist(c.cookies, c.outcome.result, browser, now))
  }

  method ApplyServerCart(store: Store, r: Resolution)
    modifies store
    ensures store.cookies == WithServerCart(old(store.cookies), r, store.browser, store.now)
    ensures store.browser == old(store.browser) && store.now == old(store.now) && store.local == old(store.local)
    ensures ServerCart(r).Some? && store.browser ==> Cart.GetCart(store) == ServerCart(r).value
  {
    var c := ServerCart(r);
    if c.Some? {
      Cart.SetCart(store, c.value);
    }
  }

  method ApplyServerWishlist(store: Store, r: Resolution)
    modifies store
    ensures store.cookies == WithServerWishlist(old(store.cookies), r, store.browser, store.now)
    ensures store.browser == old(store.browser) && store.now == old(store.now) && store.local == old(store.local)
    ensures ServerWishlist(r).Some? && store.browser ==> Wishlist.GetWishlist(store) == ServerWishlist(r).value
  {
    var w := ServerWishlist(r);
    if w.Some? {
      Wishlist.SetWishlist(store, w.value);
    }
  }

  /** The cart and wishlist cookies are as they were. */
  predicate CopiesKept(a: map<string, Cookie>, b: map<string, Cookie>) {
    (CART_COOKIE_NAME in a <==> CART_COOKIE_NAME in b) && (CART_COOKIE_NAME in a ==> a[CART_COOKIE_NAME] == b[CART_COOKIE_NAME]) &&
    (WISHLIST_COOKIE_NAME in a <==> WISHLIST_COOKIE_NAME in b) && (WISHLIST_COOKIE_NAME in a ==> a[WISHLIST_COOKIE_NAME] == b[WISHLIST_COOKIE_NAME])
  }

  /**
   * `updateLocalCartFromServer()`: asks for the server's cart with the
   * analytic id of the cookie, and replaces the local cart only with a
   * well-formed reply. `r` is how the request settled and `body` what it sent.
   */
  method UpdateLocalCartFromServer(s: Session) returns (ghost r: Resolution, ghost body: Json)
    requires s.Valid()
    modifies s, s.store
    ensures s.Valid() && (old(s.loggingOut) ==> s.loggingOut) && (!old(s.refreshing) ==> !s.refreshing)
    ensures old(s.sent) <= s.sent && old(s.toasts) <= s.toasts
    ensures s.store.browser == old(s.store.browser) && s.store.now == old(s.store.now) && s.store.local == old(s.store.local)
    ensures KeptOutside(old(s.store.cookies), s.store.cookies, SESSION_COOKIES)
    ensures body == JObj(UuidField(old(AnalyticCookie(s.store))))
    ensures var p := CartPullOf(s.env, s.store.browser, old(s.refreshing), old(s.replies), old(s.store.cookies), s.store.now);
      r == p.outcome.result && old(s.sent) + p.requests <= s.sent &&
      (s.loggingOut == old(s.loggingOut) ==>
         s.sent == old(s.sent) + p.requests && s.replies == p.replies && s.store.cookies == p.cookies &&
         s.refreshing == p.refreshing && s.toasts == old(s.toasts) && s.redirects == old(s.redirects))
    ensures ServerCart(r).Some? && s.store.browser ==> Cart.GetCart(s.store) == ServerCart(r).value
  {
    var analyticId := AnalyticCookie(s.store);
    body := JObj(UuidField(analyticId));
    LiteralMethods();
    var res := s.SendWithToken("POST", s.env.apiUrl + CART_GET_PATH, Some(JObj(UuidField(analyticId))), true);
    SilentTokenCall(old(s.refreshing), old(s.replies), old(s.store.cookies), s.store.now, "POST", s.env.apiUrl + CART_GET_PATH,
                    Some(JObj(UuidField(analyticId))));
    r := res;
    ApplyServerCart(s.store, res);
  }

  /** `updateLocalWishlistFromServer()`, the same for the wishlist. */
  method UpdateLocalWishlistFromServer(s: Session) returns (ghost r: Resolution, ghost body: Json)
    requires s.Valid()
    modifies s, s.store
    ensures s.Valid() && (old(s.loggingOut) ==> s.loggingOut) && (!old(s.refreshing) ==> !s.refreshing)
    ensures old(s.sent) <= s.sent && old(s.toasts) <= s.toasts
    ensures s.store.browser == old(s.store.browser) && s.store.now == old(s.store.now) && s.store.local == old(s.store.local)
    ensures KeptOutside(old(s.store.cookies), s.store.cookies, SESSION_COOKIES)
    ensures body == JObj(UuidField(old(AnalyticCookie(s.store))))
    ensures var p := WishlistPullOf(s.env, s.store.browser, old(s.refreshing), old(s.replies), old(s.store.cookies), s.store.now);
      r == p.outcome.result && old(s.sent) + p.requests <= s.sent &&
      (s.loggingOut == old(s.loggingOut) ==>
         s.sent == old(s.sent) + p.requests && s.replies == p.replies && s.store.cookies == p.cookies &&
         s.refreshing == p.refreshing && s.toasts == old(s.toasts) && s.redirects == old(s.redirects))
    ensures ServerWishlist(r).Some? && s.store.browser ==> Wishlist.GetWishlist(s.store) == ServerWishlist(r).value
  {
    var analyticId := AnalyticCookie(s.store);
    body := JObj(UuidField(analyticId));
    LiteralMethods();
    var res := s.SendWithToken("POST", s.env.apiUrl + WISHLIST_GET_PATH, Some(JObj(UuidField(analyticId))), true);
    SilentTokenCall(old(s.refreshing), old(s.replies), old(s.store.cookies), s.store.now, "POST", s.env.apiUrl + WISHLIST_GET_PATH,
                    Some(JObj(UuidField(analyticId))));
    r := res;
    ApplyServerWishlist(s.store, res);
  }

  // ---------------------------------------------------------------------
  // mergeAnalytics

  datatype MergeOptions = MergeOptions(mergeCart: Option<bool>, mergeViewHistory: Option<bool>, mergeWishlist: Option<bool>)

  /** `opts?.flag ?? true`. */
  function Flag(opts: Option<MergeOptions>, pick: MergeOptions -> Option<bool>): bool {
    if opts.None? then true else pick(opts.value).GetOr(true)
  }

  function MergeBody(id: Text, opts: Option<MergeOptions>): Json {
    JObj([("uuid", TextJson(id)),
          ("merge_cart", JBool(Flag(opts, (o: MergeOptions) => o.mergeCart))),
          ("merge_view_history", JBool(Flag(opts, (o: MergeOptions) => o.mergeViewHistory))),
          ("merge_wishlist", JBool(Flag(opts, (o: MergeOptions) => o.mergeWishlist)))])
  }

  /** The two pulls at the end of `mergeAnalytics`: the cart, then the wishlist from the state the cart pull leaves. */
  datatype Pulls = Pulls(cart: TokenCall, wishlist: TokenCall)

  /** The cart pull, then the wishlist pull from the state the cart pull leaves. */
  function ServerPullsOf(env: Env, browser: bool, refreshing: bool, replies: seq<Reply>,
                         cookies: map<string, Cookie>, now: int): Pulls
  {
    var cart := CartPullOf(env, browser, refreshing, replies, cookies, now);
    Pulls(cart, WishlistPullOf(env, browser, cart.refreshing, cart.replies, cart.cookies, now))
  }

  /** The pulls read off the state they start in, once the analytic id cookie is gone. */
  function PullsOf(env: Env, browser: bool, refreshing: bool, replies: seq<Reply>,
                   cookies: map<string, Cookie>, now: int): Pulls
  {
    ServerPullsOf(env, browser, refreshing, replies, cookies - {ANALYTIC_ID_COOKIE_NAME}, now)
  }

  /** `mergeAnalytics` with analytics on: the merge request (none without an id), then the pulls. */
  datatype MergeRun = MergeRun(merge: Option<TokenCall>, pulls: Pulls)

  /** The merge request read off the state it starts in: the silent POST with the cookie's id; none without an id. */
  function MergeCallOf(env: Env, opts: Option<MergeOptions>, refreshing: bool, replies: seq<Reply>,
                       cookies: map<string, Cookie>, now: int): Option<TokenCall>
  {
    var id := CookieIn(cookies, now, ANALYTIC_ID_COOKIE_NAME);
    if Present(id) then
      Some(TokenCallOf(refreshing, replies, cookies, now, "POST", env.apiUrl + MERGE_PATH, Some(MergeBody(id.value, opts)), true))
    else None
  }

  function MergeRunOf(env: Env, opts: Option<MergeOptions>, browser: bool, refreshing: bool, replies: seq<Reply>,
                      cookies: map<string, Cookie>, now: int): MergeRun
  {
    var m := MergeCallOf(env, opts, refreshing, replies, cookies, now);
    if m.Some? then MergeRun(m, PullsOf(env, browser, m.value.refreshing, m.value.replies, m.value.cookies, now))
    else MergeRun(None, PullsOf(env, browser, refreshing, replies, cookies, now))
  }

  /** Every request of a merge run, in the order sent. */
  function RunRequests(run: MergeRun): seq<Request> {
    (if run.merge.Some? then run.merge.value.requests else []) + run.pulls.cart.requests + run.pulls.wishlist.requests
  }

  /**
   * The tail of `mergeAnalytics`: the id removed from local storage and the
   * cookie, then the server's cart and then its wishlist pulled in; both
   * pulls therefore go out without an id.
   */
  method DiscardIdAndPull(s: Session)
    returns (ghost cartReply: Resolution, ghost wishReply: Resolution, ghost cartBody: Json, ghost wishBody: Json)
    requires s.Valid()
    modifies s, s.store
    ensures s.Valid() && (old(s.loggingOut) ==> s.loggingOut)
    ensures old(s.sent) <= s.sent && old(s.toasts) <= s.toasts
    ensures s.store.browser == old(s.store.browser) && s.store.now == old(s.store.now)
    ensures AnalyticCookie(s.store).None? && AnalyticLocal(s.store).None?
    ensures s.store.local == if s.store.browser then old(s.store.local) - {ANALYTIC_ID_COOKIE_NAME} else old(s.store.local)
    ensures cartBody == JObj([]) && wishBody == JObj([])
    ensures var ps := PullsOf(s.env, s.store.browser, old(s.refreshing), old(s.replies), old(s.store.cookies), s.store.now);
      cartReply == ps.cart.outcome.result && old(s.sent) + ps.cart.requests <= s.sent &&
      (s.loggingOut == old(s.loggingOut) ==>
         wishReply == ps.wishlist.outcome.result &&
         s.sent == old(s.sent) + ps.cart.requests + ps.wishlist.requests && s.replies == ps.wishlist.replies &&
         s.store.cookies == ps.wishlist.cookies && s.refreshing == ps.wishlist.refreshing &&
         s.toasts == old(s.toasts) && s.redirects == old(s.redirects))
    ensures s.loggingOut == old(s.loggingOut) && s.store.browser ==>
      (ServerCart(cartReply).Some? ==> Cart.GetCart(s.store) == ServerCart(cartReply).value) &&
      (ServerWishlist(wishReply).Some? ==> Wishlist.GetWishlist(s.store) == ServerWishlist(wishReply).value)
  {
    s.store.RemoveLocalStorage(ANALYTIC_ID_COOKIE_NAME);
    s.store.RemoveCookie(ANALYTIC_ID_COOKIE_NAME);
    assert ANALYTIC_ID_COOKIE_NAME !in SESSION_COOKIES;
    cartReply, wishReply, cartBody, wishBody := PullServerCopies(s);
  }

  /** The two awaited pulls that end `mergeAnalytics`: the server's cart, then its wishlist. */
  method PullServerCopies(s: Session)
    returns (ghost cartReply: Resolution, ghost wishReply: Resolution, ghost cartBody: Json, ghost wishBody: Json)
    requires s.Valid()
    modifies s, s.store
    ensures s.Valid() && (old(s.loggingOut) ==> s.loggingOut)
    ensures old(s.sent) <= s.sent && old(s.toasts) <= s.toasts
    ensures s.store.browser == old(s.store.browser) && s.store.now == old(s.store.now) && s.store.local == old(s.store.local)
    ensures KeptOutside(old(s.store.cookies), s.store.cookies, SESSION_COOKIES)
    ensures cartBody == JObj(UuidField(old(AnalyticCookie(s.store)))) && wishBody == JObj(UuidField(old(AnalyticCookie(s.store))))
    ensures var ps := ServerPullsOf(s.env, s.store.browser, old(s.refreshing), old(s.replies), old(s.store.cookies), s.store.now);
      cartReply == ps.cart.outcome.result && old(s.sent) + ps.cart.requests <= s.sent &&
      (s.loggingOut == old(s.loggingOut) ==>
         wishReply == ps.wishlist.outcome.result &&
         s.sent == old(s.sent) + ps.cart.requests + ps.wishlist.requests && s.replies == ps.wishlist.replies &&
         s.store.cookies == ps.wishlist.cookies && s.refreshing == ps.wishlist.refreshing &&
         s.toasts == old(s.toasts) && s.redirects == old(s.redirects))
    ensures s.loggingOut == old(s.loggingOut) && s.store.browser ==>
      (ServerCart(cartReply).Some? ==> Cart.GetCart(s.store) == ServerCart(cartReply).value) &&
      (ServerWishlist(wishReply).Some? ==> Wishlist.GetWishlist(s.store) == ServerWishlist(wishReply).value)
  {
    ghost var latch := s.loggingOut;
    ghost var ps := ServerPullsOf(s.env, s.store.browser, s.refreshing, s.replies, s.store.cookies, s.store.now);
    PullsLand(s.env, s.store.browser, s.refreshing, s.replies, s.store.cookies, s.store.now);
    ghost var id := AnalyticCookie(s.store);
    cartReply, cartBody := UpdateLocalCartFromServer(s);
    assert ANALYTIC_ID_COOKIE_NAME !in SESSION_COOKIES;
    assert AnalyticCookie(s.store) == id;
    ghost var midLatch := s.loggingOut;
    assert midLatch == latch ==>
      ps.wishlist == WishlistPullOf(s.env, s.store.browser, s.refreshing, s.replies, s.store.cookies, s.store.now);
    wishReply, wishBody := UpdateLocalWishlistFromServer(s);
  }

  /** The merge request of `mergeAnalytics`, sent only when the cookie holds an id. */
  method SendMerge(s: Session, opts: Option<MergeOptions>)
    requires s.Valid()
    modifies s, s.store
    ensures s.Valid() && (old(s.loggingOut) ==> s.loggingOut)
    ensures old(s.sent) <= s.sent && old(s.toasts) <= s.toasts
    ensures s.store.browser == old(s.store.browser) && s.store.now == old(s.store.now) && s.store.local == old(s.store.local)
    ensures var m := MergeCallOf(s.env, opts, old(s.refreshing), old(s.replies), old(s.store.cookies), s.store.now);
      (m.None? ==> unchanged(s) && unchanged(s.store)) &&
      (m.Some? ==>
         old(s.sent) + m.value.requests <= s.sent &&
         (s.loggingOut == old(s.loggingOut) ==>
            s.sent == old(s.sent) + m.value.requests && s.replies == m.value.replies &&
            s.store.cookies == m.value.cookies && s.refreshing == m.value.refreshing &&
            s.toasts == old(s.toasts) && s.redirects == old(s.redirects)))
  {
    var analyticId := AnalyticCookie(s.store);
    if Present(analyticId) {
      LiteralMethods();
      SilentTokenCall(s.refreshing, s.replies, s.store.cookies, s.store.now, "POST", s.env.apiUrl + MERGE_PATH,
                      Some(MergeBody(analyticId.value, opts)));
      var _ := s.SendWithToken("POST", s.env.apiUrl + MERGE_PATH, Some(MergeBody(analyticId.value, opts)), true);
    }
  }

  /**
   * `mergeAnalytics(opts)`: nothing when analytics is off; otherwise the
   * merge request (only with an id), then `DiscardIdAndPull`. The merge
   * request is silent, so it resolves and its `catch` is never taken.
   */
  method MergeAnalytics(s: Session, opts: Option<MergeOptions>)
    returns (ghost cartReply: Resolution, ghost wishReply: Resolution, ghost cartBody: Json, ghost wishBody: Json)
    requires s.Valid()
    modifies s, s.store
    ensures s.Valid() && (old(s.loggingOut) ==> s.loggingOut)
    ensures old(s.sent) <= s.sent && old(s.toasts) <= s.toasts
    ensures s.store.browser == old(s.store.browser) && s.store.now == old(s.store.now)
    ensures !AnalyticsEnabled(s.env) ==> unchanged(s) && unchanged(s.store)
    ensures AnalyticsEnabled(s.env) ==>
      AnalyticCookie(s.store).None? && AnalyticLocal(s.store).None? &&
      cartBody == JObj([]) && wishBody == JObj([]) &&
      s.store.local == if s.store.browser then old(s.store.local) - {ANALYTIC_ID_COOKIE_NAME} else old(s.store.local)
    ensures AnalyticsEnabled(s.env) ==>
      var run := MergeRunOf(s.env, opts, s.store.browser, old(s.refreshing), old(s.replies), old(s.store.cookies), s.store.now);
      (run.merge.Some? ==> old(s.sent) + run.merge.value.requests <= s.sent) &&
      (s.loggingOut == old(s.loggingOut) ==>
         cartReply == run.pulls.cart.outcome.result && wishReply == run.pulls.wishlist.outcome.result &&
         s.sent == old(s.sent) + RunRequests(run) && s.replies == run.pulls.wishlist.replies &&
         s.store.cookies == run.pulls.wishlist.cookies && s.refreshing == run.pulls.wishlist.refreshing &&
         s.toasts == old(s.toasts) && s.redirects == old(s.redirects))
    ensures AnalyticsEnabled(s.env) && s.loggingOut == old(s.loggingOut) && s.store.browser ==>
      (ServerCart(cartReply).Some? ==> Cart.GetCart(s.store) == ServerCart(cartReply).value) &&
      (ServerWishlist(wishReply).Some? ==> Wishlist.GetWishlist(s.store) == ServerWishlist(wishReply).value)
  {
    cartReply, wishReply, cartBody, wishBody := Rejected, Rejected, JNull, JNull;
    var analyticId := AnalyticCookie(s.store);
    if !AnalyticsEnabled(s.env) {
      return;
    }
    cartReply, wishReply, cartBody, wishBody := MergeAndPull(s, opts);
  }

  /** The body of `mergeAnalytics` once analytics is on: the merge request, then `DiscardIdAndPull`. */
  method MergeAndPull(s: Session, opts: Option<MergeOptions>)
    returns (ghost cartReply: Resolution, ghost wishReply: Resolution, ghost cartBody: Json, ghost wishBody: Json)
    requires s.Valid()
    modifies s, s.store
    ensures s.Valid() && (old(s.loggingOut) ==> s.loggingOut)
    ensures old(s.sent) <= s.sent && old(s.toasts) <= s.toasts
    ensures s.store.browser == old(s.store.browser) && s.store.now == old(s.store.now)
    ensures AnalyticCookie(s.store).None? && AnalyticLocal(s.store).None? && cartBody == JObj([]) && wishBody == JObj([])
    ensures s.store.local == if s.store.browser then old(s.store.local) - {ANALYTIC_ID_COOKIE_NAME} else old(s.store.local)
    ensures var run := MergeRunOf(s.env, opts, s.store.browser, old(s.refreshing), old(s.replies), old(s.store.cookies), s.store.now);
      (run.merge.Some? ==> old(s.sent) + run.merge.value.requests <= s.sent) &&
      (s.loggingOut == old(s.loggingOut) ==>
         cartReply == run.pulls.cart.outcome.result && wishReply == run.pulls.wishlist.outcome.result &&
         s.sent == old(s.sent) + RunRequests(run) && s.replies == run.pulls.wishlist.replies &&
         s.store.cookies == run.pulls.wishlist.cookies && s.refreshing == run.pulls.wishlist.refreshing &&
         s.toasts == old(s.toasts) && s.redirects == old(s.redirects))
    ensures s.loggingOut == old(s.loggingOut) && s.store.browser ==>
      (ServerCart(cartReply).Some? ==> Cart.GetCart(s.store) == ServerCart(cartReply).value) &&
      (ServerWishlist(wishReply).Some? ==> Wishlist.GetWishlist(s.store) == ServerWishlist(wishReply).value)
  {
    ghost var latch, sent0 := s.loggingOut, s.sent;
    ghost var run := MergeRunOf(s.env, opts, s.store.browser, s.refreshing, s.replies, s.store.cookies, s.store.now);
    SendMerge(s, opts);
    ghost var midLatch, midSent := s.loggingOut, s.sent;
    ghost var mreq := if run.merge.Some? then run.merge.value.requests else [];
    assert midLatch == latch ==>
      midSent == sent0 + mreq &&
      run.pulls == PullsOf(s.env, s.store.browser, s.refreshing, s.replies, s.store.cookies, s.store.now);
    cartReply, wishReply, cartBody, wishBody := DiscardIdAndPull(s);
    if s.loggingOut == latch {
      assert s.sent == midSent + run.pulls.cart.requests + run.pulls.wishlist.requests;
      ConcatAssoc(sent0, mreq, run.pulls.cart.requests, run.pulls.wishlist.requests);
    }
  }

  // ---------------------------------------------------------------------
  // Posting

  /** `ensureAnalyticId()`: the cookie's id, or one from `getOrCreateAnalyticId` for a guest without one. */
  method EnsureAnalyticId(s: Session) returns (id: Option<Text>)
    requires s.Valid()
    modifies s, s.store
    ensures s.Valid()
    ensures s.store.browser == old(s.store.browser) && s.store.now == old(s.store.now)
    ensures s.refreshing == old(s.refreshing) && s.loggingOut == old(s.loggingOut)
    ensures s.toasts == old(s.toasts) && s.redirects == old(s.redirects)
    ensures s.store.IsLoggedIn() == old(s.store.IsLoggedIn()) && s.store.GetAccessToken() == old(s.store.GetAccessToken())
    ensures old(s.sent) <= s.sent
    ensures !old(WantsId(s.store)) ==> id == old(AnalyticCookie(s.store)) && unchanged(s) && unchanged(s.store)
    // A guest without an id gets one from local storage or the server, which only then reads a reply;
    // only the id's cookie and local-storage key are written.
    ensures old(WantsId(s.store)) ==>
      var src, reply := old(IdSourceOf(s.store)), old(s.NextReply());
      id == SourcedId(src, reply) &&
      s.sent == old(s.sent) + (if old(LooksUpId(s.store)) then [IdRequest(s.env)] else []) &&
      s.replies == (if old(LooksUpId(s.store)) then Tail(old(s.replies)) else old(s.replies)) &&
      s.store.cookies == SourcedCookies(src, reply, old(s.store.cookies), s.store.now) &&
      s.store.local == SourcedLocal(src, reply, old(s.store.local))
    ensures Present(id) ==> AnalyticCookie(s.store) == id
  {
    id := AnalyticCookie(s.store);
    if !Present(id) && !s.store.IsLoggedIn() {
      id := GetOrCreateAnalyticId(s);
    }
  }

  function ItemsJson(items: seq<Cart.CartItem>): Json {
    JArr(Cart.EncodeItems(items))
  }

  function SlugsJson(slugs: seq<string>): (j: Json)
    ensures j.JArr? && |j.items| == |slugs|
    ensures forall i | 0 <= i < |slugs| :: j.items[i] == JStr(slugs[i])
  {
    if |slugs| == 0 then JArr([]) else JArr([JStr(slugs[0])] + SlugsJson(slugs[1..]).items)
  }

  /**
   * `postCart(items)`: after `ensureAnalyticId` (which runs even with
   * analytics off), a user posts to the authenticated endpoint and a guest
   * to the public one, the guest only with an id. `None` is `undefined`.
   */
  method PostCart(s: Session, items: seq<Cart.CartItem>) returns (r: Option<Resolution>, id: Option<Text>)
    requires s.Valid()
    modifies s, s.store
    ensures s.Valid()
    ensures s.store.browser == old(s.store.browser) && s.store.now == old(s.store.now)
    ensures old(s.sent) <= s.sent
    ensures !AnalyticsEnabled(s.env) ==> r.None?
    ensures id == if old(WantsId(s.store)) then SourcedId(old(IdSourceOf(s.store)), old(s.NextReply()))
                  else old(AnalyticCookie(s.store))
    // `ensureAnalyticId` runs even with analytics off, and then nothing else happens.
    ensures !AnalyticsEnabled(s.env) ==>
      s.sent == old(s.sent) + (if old(LooksUpId(s.store)) then [IdRequest(s.env)] else []) &&
      s.replies == (if old(LooksUpId(s.store)) then Tail(old(s.replies)) else old(s.replies)) &&
      s.toasts == old(s.toasts) && s.refreshing == old(s.refreshing) && s.loggingOut == old(s.loggingOut) &&
      s.redirects == old(s.redirects)
    // The id lookup writes only the id's cookie and local-storage key; a guest's post writes nothing.
    ensures !AnalyticsEnabled(s.env) || !old(s.store.IsLoggedIn()) ==>
      s.store.cookies == if old(WantsId(s.store)) then SourcedCookies(old(IdSourceOf(s.store)), old(s.NextReply()), old(s.store.cookies), s.store.now)
                         else old(s.store.cookies)
    ensures s.store.local == if old(WantsId(s.store)) then SourcedLocal(old(IdSourceOf(s.store)), old(s.NextReply()), old(s.store.local))
                             else old(s.store.local)
    ensures AnalyticsEnabled(s.env) && old(s.store.IsLoggedIn()) ==>
      r.Some? &&
      (old(s.store.GetAccessToken()).Some? ==>
         old(s.sent) + [MakeRequest(Post, s.env.apiUrl + CART_POST_PATH, Some(JObj([("items", ItemsJson(items))])),
                                    old(s.store.GetAccessToken()))] <= s.sent)
    // A user's post is an authenticated call, refreshing an expired token first.
    ensures AnalyticsEnabled(s.env) && old(s.store.IsLoggedIn()) ==>
      var c := TokenCallOf(old(s.refreshing), old(s.replies), old(s.store.cookies), s.store.now, "POST",
                           s.env.apiUrl + CART_POST_PATH, Some(JObj([("items", ItemsJson(items))])), true);
      r == Some(c.outcome.result) && old(s.sent) + c.requests <= s.sent &&
      (s.loggingOut == old(s.loggingOut) ==>
         s.sent == old(s.sent) + c.requests && s.replies == c.replies && s.store.cookies == c.cookies &&
         s.refreshing == c.refreshing && s.toasts == old(s.toasts) && s.redirects == old(s.redirects))
    // A guest's post follows the id lookup and settles with the next reply.
    ensures AnalyticsEnabled(s.env) && !old(s.store.IsLoggedIn()) ==>
      var pre := old(s.sent) + (if old(LooksUpId(s.store)) then [IdRequest(s.env)] else []);
      var rest := if old(LooksUpId(s.store)) then Tail(old(s.replies)) else old(s.replies);
      (r.Some? <==> Present(id)) && s.toasts == old(s.toasts) &&
      (r.None? ==> s.sent == pre && s.replies == rest) &&
      (r.Some? ==>
         s.sent == pre + [MakeRequest(Post, PublicUrl(s.env, PUBLIC_CART_POST, true), Some(JObj(UuidField(id) + [("items", ItemsJson(items))])), None)] &&
         s.replies == Tail(rest) && r.value == ReplyOutcome(Head(rest), false, false).result)
  {
    ghost var wants, looks, src, reply := WantsId(s.store), LooksUpId(s.store), IdSourceOf(s.store), s.NextReply();
    ghost var cookies0, local0 := s.store.cookies, s.store.local;
    id := EnsureAnalyticId(s);
    ghost var cookies1, local1 := s.store.cookies, s.store.local;
    assert cookies1 == if wants then SourcedCookies(src, reply, cookies0, s.store.now) else cookies0;
    assert local1 == if wants then SourcedLocal(src, reply, local0) else local0;
    r := SendCart(s, items, id);
  }

  /** The rest of `postCart` once `ensureAnalyticId` gave `id`. */
  method SendCart(s: Session, items: seq<Cart.CartItem>, id: Option<Text>) returns (r: Option<Resolution>)
    requires s.Valid()
    modifies s, s.store
    ensures s.Valid()
    ensures s.store.browser == old(s.store.browser) && s.store.now == old(s.store.now)
    ensures old(s.sent) <= s.sent
    ensures !AnalyticsEnabled(s.env) ==> r.None? && unchanged(s) && unchanged(s.store)
    ensures s.store.local == old(s.store.local)
    ensures !old(s.store.IsLoggedIn()) ==> s.store.cookies == old(s.store.cookies)
    ensures AnalyticsEnabled(s.env) && old(s.store.IsLoggedIn()) ==>
      r.Some? &&
      (old(s.store.GetAccessToken()).Some? ==>
         old(s.sent) + [MakeRequest(Post, s.env.apiUrl + CART_POST_PATH, Some(JObj([("items", ItemsJson(items))])),
                                    old(s.store.GetAccessToken()))] <= s.sent)
    ensures AnalyticsEnabled(s.env) && old(s.store.IsLoggedIn()) ==>
      var c := TokenCallOf(old(s.refreshing), old(s.replies), old(s.store.cookies), s.store.now, "POST",
                           s.env.apiUrl + CART_POST_PATH, Some(JObj([("items", ItemsJson(items))])), true);
      r == Some(c.outcome.result) && old(s.sent) + c.requests <= s.sent &&
      (s.loggingOut == old(s.loggingOut) ==>
         s.sent == old(s.sent) + c.requests && s.replies == c.replies && s.store.cookies == c.cookies &&
         s.refreshing == c.refreshing && s.toasts == old(s.toasts) && s.redirects == old(s.redirects))
    ensures AnalyticsEnabled(s.env) && !old(s.store.IsLoggedIn()) ==>
      (r.Some? <==> Present(id)) && s.toasts == old(s.toasts) &&
      (r.None? ==> s.sent == old(s.sent) && s.replies == old(s.replies)) &&
      (r.Some? ==>
         s.sent == old(s.sent) + [MakeRequest(Post, PublicUrl(s.env, PUBLIC_CART_POST, true), Some(JObj(UuidField(id) + [("items", ItemsJson(items))])), None)] &&
         s.replies == Tail(old(s.replies)) && r.value == ReplyOutcome(old(s.NextReply()), false, false).result)
  {
    if !AnalyticsEnabled(s.env) {
      return None;
    }
    if s.store.IsLoggedIn() {
      LiteralMethods();
      SilentTokenCall(s.refreshing, s.replies, s.store.cookies, s.store.now, "POST", s.env.apiUrl + CART_POST_PATH,
                      Some(JObj([("items", ItemsJson(items))])));
      var tok := s.store.GetAccessToken();
      if tok.Some? {
        StoredTokenCall(s.refreshing, s.replies, s.store.cookies, s.store.now, "POST", s.env.apiUrl + CART_POST_PATH,
                        Some(JObj([("items", ItemsJson(items))])), true, tok.value, Post);
      }
      var res := s.SendWithToken("POST", s.env.apiUrl + CART_POST_PATH, Some(JObj([("items", ItemsJson(items))])), true);
      return Some(res);
    }
    if Present(id) {
      LiteralMethods();
      var res := s.SendPublic("POST", PUBLIC_CART_POST, Some(JObj(UuidField(id) + [("items", ItemsJson(items))])), true, true);
      return Some(res);
    }
    return None;
  }

  /** `postWishlist(slugs)`: as `postCart`, with the cookie's id and no `ensureAnalyticId`. */
  method PostWishlist(s: Session, slugs: seq<string>) returns (r: Option<Resolution>)
    requires s.Valid()
    modifies s, s.store
    ensures s.Valid()
    ensures s.store.browser == old(s.store.browser) && s.store.now == old(s.store.now)
    ensures old(s.sent) <= s.sent
    ensures !AnalyticsEnabled(s.env) ==> r.None? && unchanged(s) && unchanged(s.store)
    ensures AnalyticsEnabled(s.env) && old(s.store.IsLoggedIn()) ==>
      r.Some? &&
      (old(s.store.GetAccessToken()).Some? ==>
         old(s.sent) + [MakeRequest(Post, s.env.apiUrl + WISHLIST_POST_PATH,
                                    Some(JObj(UuidField(old(AnalyticCookie(s.store))) + [("product_slugs", SlugsJson(slugs))])),
                                    old(s.store.GetAccessToken()))] <= s.sent)
    // A user's post is an authenticated call, refreshing an expired token first.
    ensures AnalyticsEnabled(s.env) && old(s.store.IsLoggedIn()) ==>
      var c := TokenCallOf(old(s.refreshing), old(s.replies), old(s.store.cookies), s.store.now, "POST", s.env.apiUrl + WISHLIST_POST_PATH,
                           Some(JObj(UuidField(old(AnalyticCookie(s.store))) + [("product_slugs", SlugsJson(slugs))])), true);
      r == Some(c.outcome.result) && old(s.sent) + c.requests <= s.sent &&
      (s.loggingOut == old(s.loggingOut) ==>
         s.sent == old(s.sent) + c.requests && s.replies == c.replies && s.store.cookies == c.cookies &&
         s.refreshing == c.refreshing && s.toasts == old(s.toasts) && s.redirects == old(s.redirects))
    ensures AnalyticsEnabled(s.env) && !old(s.store.IsLoggedIn()) ==>
      (r.Some? <==> Present(old(AnalyticCookie(s.store)))) && s.toasts == old(s.toasts) &&
      (r.None? ==> s.sent == old(s.sent) && s.replies == old(s.replies)) &&
      (r.Some? ==> s.sent == old(s.sent) + [MakeRequest(Post, PublicUrl(s.env, PUBLIC_WISHLIST_POST, true),
                      Some(JObj(UuidField(old(AnalyticCookie(s.store))) + [("product_slugs", SlugsJson(slugs))])), None)] &&
                   s.replies == Tail(old(s.replies)) && r.value == ReplyOutcome(old(s.NextReply()), false, false).result)
  {
    var analyticId := AnalyticCookie(s.store);
    if !AnalyticsEnabled(s.env) {
      return None;
    }
    var body := JObj(UuidField(analyticId) + [("product_slugs", SlugsJson(slugs))]);
    if s.store.IsLoggedIn() {
      LiteralMethods();
      SilentTokenCall(s.refreshing, s.replies, s.store.cookies, s.store.now, "POST", s.env.apiUrl + WISHLIST_POST_PATH, Some(body));
      var res := s.SendWithToken("POST", s.env.apiUrl + WISHLIST_POST_PATH, Some(body), true);
      return Some(res);
    }
    if Present(analyticId) {
      LiteralMethods();
      var res := s.SendPublic("POST", PUBLIC_WISHLIST_POST, Some(body), true, true);
      return Some(res);
    }
    return None;
  }

  /** `getCartFromServer()`: the server's cart for a user, `null` for a guest, `undefined` with analytics off. */
  method GetCartFromServer(s: Session) returns (r: Option<Resolution>)
    requires s.Valid()
    modifies s, s.store
    ensures s.Valid()
    ensures old(s.sent) <= s.sent
    ensures !AnalyticsEnabled(s.env) ==> r.None?
    ensures AnalyticsEnabled(s.env) && !old(s.store.IsLoggedIn()) ==> r == Some(Resolved(JNull))
    // `ensureAnalyticId` runs even with analytics off; a guest then sends nothing more.
    ensures !AnalyticsEnabled(s.env) || !old(s.store.IsLoggedIn()) ==>
      s.sent == old(s.sent) + (if old(LooksUpId(s.store)) then [IdRequest(s.env)] else []) &&
      s.replies == (if old(LooksUpId(s.store)) then Tail(old(s.replies)) else old(s.replies)) &&
      s.toasts == old(s.toasts) && s.refreshing == old(s.refreshing) && s.loggingOut == old(s.loggingOut) &&
      s.redirects == old(s.redirects) &&
      s.store.cookies == (if old(WantsId(s.store)) then SourcedCookies(old(IdSourceOf(s.store)), old(s.NextReply()), old(s.store.cookies), s.store.now)
                          else old(s.store.cookies))
    ensures s.store.local == if old(WantsId(s.store)) then SourcedLocal(old(IdSourceOf(s.store)), old(s.NextReply()), old(s.store.local))
                             else old(s.store.local)
    ensures AnalyticsEnabled(s.env) && old(s.store.IsLoggedIn()) ==>
      r.Some? && r.value.Resolved? &&
      (old(s.store.GetAccessToken()).Some? ==>
         old(s.sent) + [MakeRequest(Post, s.env.apiUrl + CART_GET_PATH, Some(JObj(UuidField(old(AnalyticCookie(s.store))))),
                                    old(s.store.GetAccessToken()))] <= s.sent)
    // A user's cart is what the authenticated call settles with, refreshing an expired token first.
    ensures AnalyticsEnabled(s.env) && old(s.store.IsLoggedIn()) ==>
      var c := TokenCallOf(old(s.refreshing), old(s.replies), old(s.store.cookies), s.store.now, "POST",
                           s.env.apiUrl + CART_GET_PATH, Some(JObj(UuidField(old(AnalyticCookie(s.store))))), true);
      r == Some(c.outcome.result) && old(s.sent) + c.requests <= s.sent &&
      (s.loggingOut == old(s.loggingOut) ==>
         s.sent == old(s.sent) + c.requests && s.replies == c.replies && s.store.cookies == c.cookies &&
         s.refreshing == c.refreshing && s.toasts == old(s.toasts) && s.redirects == old(s.redirects))
  {
    var analyticId := EnsureAnalyticId(s);
    if !AnalyticsEnabled(s.env) {
      return None;
    }
    if s.store.IsLoggedIn() {
      LiteralMethods();
      SilentTokenCall(s.refreshing, s.replies, s.store.cookies, s.store.now, "POST", s.env.apiUrl + CART_GET_PATH,
                      Some(JObj(UuidField(analyticId))));
      var res := s.SendWithToken("POST", s.env.apiUrl + CART_GET_PATH, Some(JObj(UuidField(analyticId))), true);
      return Some(res);
    }
    return Some(Resolved(JNull));
  }

  // ---------------------------------------------------------------------
  // Properties

  lemma ConcatAssoc<T>(a: seq<T>, b: seq<T>, c: seq<T>, d: seq<T>)
    ensures a + b + c + d == a + (b + c + d)
  {
  }

  /** On an object whose price is already a number, the server reading is the cookie reading. */
  lemma ServerCartItemIsItemOf(fields: seq<(string, Json)>)
    requires JsonDoc.Get(fields, "price").Some? && JsonDoc.Get(fields, "price").value.JNum?
    ensures ServerCartItem(JObj(fields)) == Cart.ItemOf(JObj(fields))
  {
  }

  lemma {:induction false} NormalizeEncodedCart(c: seq<Cart.CartItem>)
    ensures NormalizeCart(Cart.EncodeItems(c)) == Some(c)
    decreases |c|
  {
    if |c| > 0 {
      var vs := Cart.EncodeItems(c);
      assert vs[0] == Cart.ItemJson(c[0]);
      assert vs[1..] == Cart.EncodeItems(c[1..]);
      NormalizeEncodedCart(c[1..]);
      ServerItemOfItemJson(c[0]);
      NormalizeCons(vs, c[0], c[1..]);
      assert c == [c[0]] + c[1..];
    }
  }

  /** One step of `NormalizeCart`: a readable head item leads the tail's reading. */
  lemma NormalizeCons(vs: seq<Json>, it: Cart.CartItem, rest: seq<Cart.CartItem>)
    requires |vs| > 0 && ServerCartItem(vs[0]) == Some(it) && NormalizeCart(vs[1..]) == Some(rest)
    ensures NormalizeCart(vs) == Some([it] + rest)
  {
    assert !vs[0].JNull?;
  }

  /** The server reading of an encoded cart item is that item. */
  lemma ServerItemOfItemJson(it: Cart.CartItem)
    ensures ServerCartItem(Cart.ItemJson(it)) == Some(it)
  {
    Cart.ItemOfItemJson(it);
    ServerCartItemIsItemOf(Cart.ItemJson(it).fields);
  }

  /** A server reply holding a cart in its `items` replaces the local cart with exactly that cart. */
  lemma ServerCartRoundTrip(c: seq<Cart.CartItem>)
    ensures ServerCart(Resolved(JObj([("items", ItemsJson(c))]))) == Some(c)
  {
    NormalizeEncodedCart(c);
  }

  /** The three keys of a server item with a text price. */
  lemma TextPriceItemProps(sku: string, amount: int, text: string)
    ensures var item := JObj([("sku", JStr(sku)), ("amount", JNum(amount)), ("price", JStr(text))]);
      Prop(item, "sku") == Found(JStr(sku)) && Prop(item, "amount") == Found(JNum(amount)) &&
      Prop(item, "price") == Found(JStr(text))
  {
    var f := [("sku", JStr(sku)), ("amount", JNum(amount)), ("price", JStr(text))];
    assert JsonDoc.Get(f, "amount") == Some(JNum(amount)) by {
      assert f[..2] == [("sku", JStr(sku)), ("amount", JNum(amount))];
    }
    assert JsonDoc.Get(f, "sku") == Some(JStr(sku)) by {
      assert JsonDoc.Get(f, "sku") == JsonDoc.Get(f[..2], "sku");
      assert f[..2][..1] == [("sku", JStr(sku))];
      assert JsonDoc.Get(f[..2], "sku") == JsonDoc.Get(f[..2][..1], "sku");
    }
  }

  /** A price sent as decimal text is read as its number. */
  lemma ServerPriceText(it: Cart.CartItem)
    ensures ServerCartItem(JObj([("sku", JStr(it.sku)), ("amount", JNum(it.amount)), ("price", JStr(IntToString(it.price)))]))
      == Some(it)
  {
    TextPriceItemProps(it.sku, it.amount, IntToString(it.price));
    NumberOfIntToString(it.price);
  }

  /** A null reply, a falsy one, or one without an `items` array leaves the cart alone. */
  lemma MalformedCartReply(v: Json)
    requires !Truthy(v) || !Prop(v, "items").Found? || !Prop(v, "items").v.JArr?
    ensures ServerCart(Resolved(v)).None? && ServerCart(Rejected).None?
  {
  }

  /** On an object, the server reading of a wishlist item is the cookie reading. */
  lemma ServerWishlistItemIsItemOf(fields: seq<(string, Json)>)
    ensures ServerWishlistItem(JObj(fields)) == Wishlist.ItemOf(JObj(fields))
  {
  }

  lemma {:induction false} NormalizeEncodedWishlist(w: seq<Wishlist.WishlistItem>)
    ensures NormalizeWishlist(Wishlist.EncodeItems(w)) == Some(w)
    decreases |w|
  {
    if |w| > 0 {
      var vs := Wishlist.EncodeItems(w);
      assert vs[0] == Wishlist.ItemJson(w[0]);
      assert vs[1..] == Wishlist.EncodeItems(w[1..]);
      NormalizeEncodedWishlist(w[1..]);
      Wishlist.ItemOfItemJson(w[0]);
      ServerWishlistItemIsItemOf(vs[0].fields);
      assert NormalizeWishlist(vs) == Some([w[0]] + w[1..]);
      assert w == [w[0]] + w[1..];
    }
  }

  /** A server reply that is an array of wishlist items replaces the local wishlist with exactly those. */
  lemma ServerWishlistRoundTrip(w: seq<Wishlist.WishlistItem>)
    ensures ServerWishlist(Resolved(JArr(Wishlist.EncodeItems(w)))) == Some(w)
  {
    NormalizeEncodedWishlist(w);
  }

  /** The cart pull writes no cookie but the token pair and the cart, and the cart only with a server copy. */
  lemma CartPullKeeps(env: Env, browser: bool, refreshing: bool, replies: seq<Reply>,
                      cookies: map<string, Cookie>, now: int)
    ensures var p := CartPullOf(env, browser, refreshing, replies, cookies, now);
      KeptOutside(cookies, p.cookies, TOKEN_COOKIES + {CART_COOKIE_NAME}) &&
      (ServerCart(p.outcome.result).None? ==> CopiesKept(cookies, p.cookies))
  {
    TokenCallKeeps(refreshing, replies, cookies, now, "POST", env.apiUrl + CART_GET_PATH,
                   Some(JObj(UuidField(CookieIn(cookies, now, ANALYTIC_ID_COOKIE_NAME)))), true);
  }

  /** The wishlist pull writes no cookie but the token pair and the wishlist, and the wishlist only with a server copy. */
  lemma WishlistPullKeeps(env: Env, browser: bool, refreshing: bool, replies: seq<Reply>,
                          cookies: map<string, Cookie>, now: int)
    ensures var p := WishlistPullOf(env, browser, refreshing, replies, cookies, now);
      KeptOutside(cookies, p.cookies, TOKEN_COOKIES + {WISHLIST_COOKIE_NAME}) &&
      (ServerWishlist(p.outcome.result).None? ==> CopiesKept(cookies, p.cookies))
  {
    TokenCallKeeps(refreshing, replies, cookies, now, "POST", env.apiUrl + WISHLIST_GET_PATH,
                   Some(JObj(UuidField(CookieIn(cookies, now, ANALYTIC_ID_COOKIE_NAME)))), true);
  }

  /**
   * In a browser, a well-formed server cart and server wishlist are what
   * the cookies hold once both pulls are done: the wishlist pull leaves
   * the cart the first pull wrote.
   */
  lemma PullsLand(env: Env, browser: bool, refreshing: bool, replies: seq<Reply>,
                  cookies: map<string, Cookie>, now: int)
    ensures var ps := ServerPullsOf(env, browser, refreshing, replies, cookies, now);
      browser ==>
        (ServerCart(ps.cart.outcome.result).Some? ==>
           Cart.ReadCart(CookieIn(ps.wishlist.cookies, now, CART_COOKIE_NAME)) == ServerCart(ps.cart.outcome.result).value) &&
        (ServerWishlist(ps.wishlist.outcome.result).Some? ==>
           Wishlist.ReadWishlist(CookieIn(ps.wishlist.cookies, now, WISHLIST_COOKIE_NAME)) == ServerWishlist(ps.wishlist.outcome.result).value)
  {
    var ps := ServerPullsOf(env, browser, refreshing, replies, cookies, now);
    var cart := ps.cart;
    WishlistPullKeeps(env, browser, cart.refreshing, cart.replies, cart.cookies, now);
    assert CART_COOKIE_NAME !in TOKEN_COOKIES + {WISHLIST_COOKIE_NAME};
    if browser && ServerCart(cart.outcome.result).Some? {
      Cart.ReadCartText(ServerCart(cart.outcome.result).value);
      assert ps.wishlist.cookies[CART_COOKIE_NAME] == Cart.CartCookie(ServerCart(cart.outcome.result).value, now);
    }
    if browser && ServerWishlist(ps.wishlist.outcome.result).Some? {
      Wishlist.ReadWishlistText(ServerWishlist(ps.wishlist.outcome.result).value);
    }
  }

  /**
   * With a token stored, the two pulls go out without an id and with that
   * token, read the next two replies in order, touch no cookie but the
   * id, the cart and the wishlist, and leave the token stored.
   */
  lemma PullsWithStoredToken(env: Env, browser: bool, refreshing: bool, replies: seq<Reply>,
                             cookies: map<string, Cookie>, now: int, tok: Text)
    requires AccessTokenIn(cookies, now) == Some(tok)
    ensures var ps := PullsOf(env, browser, refreshing, replies, cookies, now);
      ps.cart.requests == [MakeRequest(Post, env.apiUrl + CART_GET_PATH, Some(JObj([])), Some(tok))] &&
      ps.wishlist.requests == [MakeRequest(Post, env.apiUrl + WISHLIST_GET_PATH, Some(JObj([])), Some(tok))] &&
      ps.cart.outcome == ReplyOutcome(Head(replies), false, true) &&
      ps.wishlist.outcome == ReplyOutcome(Head(Tail(replies)), false, true) &&
      ps.wishlist.replies == Tail(Tail(replies)) && ps.wishlist.refreshing == refreshing &&
      AccessTokenIn(ps.wishlist.cookies, now) == Some(tok) &&
      KeptOutside(cookies, ps.wishlist.cookies, {ANALYTIC_ID_COOKIE_NAME, CART_COOKIE_NAME, WISHLIST_COOKIE_NAME})
  {
    LiteralMethods();
    var k0 := cookies - {ANALYTIC_ID_COOKIE_NAME};
    assert AccessTokenIn(k0, now) == Some(tok);
    assert CookieIn(k0, now, ANALYTIC_ID_COOKIE_NAME).None?;
    StoredTokenCall(refreshing, replies, k0, now, "POST", env.apiUrl + CART_GET_PATH, Some(JObj([])), true, tok, Post);
    var ps := PullsOf(env, browser, refreshing, replies, cookies, now);
    assert AccessTokenIn(ps.cart.cookies, now) == Some(tok);
    assert CookieIn(ps.cart.cookies, now, ANALYTIC_ID_COOKIE_NAME).None?;
    StoredTokenCall(refreshing, Tail(replies), ps.cart.cookies, now, "POST", env.apiUrl + WISHLIST_GET_PATH, Some(JObj([])),
                    true, tok, Post);
  }

  /**
   * After login with a token stored, `mergeAnalytics` sends the merge (only
   * with an id), the cart pull and the wishlist pull, in that order and all
   * with that token; the pulls settle with the replies after the merge's,
   * and the token stays stored.
   */
  lemma MergeRunWithStoredToken(env: Env, opts: Option<MergeOptions>, browser: bool, refreshing: bool,
                                replies: seq<Reply>, cookies: map<string, Cookie>, now: int, tok: Text)
    requires AccessTokenIn(cookies, now) == Some(tok)
    ensures var run := MergeRunOf(env, opts, browser, refreshing, replies, cookies, now);
      var id := CookieIn(cookies, now, ANALYTIC_ID_COOKIE_NAME);
      var rest := if Present(id) then Tail(replies) else replies;
      RunRequests(run) ==
        (if Present(id) then [MakeRequest(Post, env.apiUrl + MERGE_PATH, Some(MergeBody(id.value, opts)), Some(tok))] else []) +
        [MakeRequest(Post, env.apiUrl + CART_GET_PATH, Some(JObj([])), Some(tok)),
         MakeRequest(Post, env.apiUrl + WISHLIST_GET_PATH, Some(JObj([])), Some(tok))] &&
      (forall i | 0 <= i < |RunRequests(run)| :: RunRequests(run)[i].bearer == Some(tok)) &&
      run.pulls.cart.outcome == ReplyOutcome(Head(rest), false, true) &&
      run.pulls.wishlist.outcome == ReplyOutcome(Head(Tail(rest)), false, true) &&
      AccessTokenIn(run.pulls.wishlist.cookies, now) == Some(tok) &&
      KeptOutside(cookies, run.pulls.wishlist.cookies, {ANALYTIC_ID_COOKIE_NAME, CART_COOKIE_NAME, WISHLIST_COOKIE_NAME})
  {
    var id := CookieIn(cookies, now, ANALYTIC_ID_COOKIE_NAME);
    var rest := if Present(id) then Tail(replies) else replies;
    var run := MergeRunOf(env, opts, browser, refreshing, replies, cookies, now);
    MergeStepWithStoredToken(env, opts, browser, refreshing, replies, cookies, now, tok);
    PullsWithStoredToken(env, browser, refreshing, rest, cookies, now, tok);
    var mreq := if Present(id) then [MakeRequest(Post, env.apiUrl + MERGE_PATH, Some(MergeBody(id.value, opts)), Some(tok))] else [];
    var pulls := [MakeRequest(Post, env.apiUrl + CART_GET_PATH, Some(JObj([])), Some(tok)),
                  MakeRequest(Post, env.apiUrl + WISHLIST_GET_PATH, Some(JObj([])), Some(tok))];
    assert RunRequests(run) == mreq + pulls;
    BearersOf(mreq, pulls, tok);
  }

  /** Every request of two lists sent with `tok` carries it. */
  lemma BearersOf(a: seq<Request>, b: seq<Request>, tok: Text)
    requires forall i | 0 <= i < |a| :: a[i].bearer == Some(tok)
    requires forall i | 0 <= i < |b| :: b[i].bearer == Some(tok)
    ensures forall i | 0 <= i < |a + b| :: (a + b)[i].bearer == Some(tok)
  {
  }

  /** With a stored token the merge step sends only its one request, with an id, and hands the pulls the next replies and the same cookies. */
  lemma MergeStepWithStoredToken(env: Env, opts: Option<MergeOptions>, browser: bool, refreshing: bool,
                                 replies: seq<Reply>, cookies: map<string, Cookie>, now: int, tok: Text)
    requires AccessTokenIn(cookies, now) == Some(tok)
    ensures var run := MergeRunOf(env, opts, browser, refreshing, replies, cookies, now);
      var id := CookieIn(cookies, now, ANALYTIC_ID_COOKIE_NAME);
      run.pulls == PullsOf(env, browser, refreshing, if Present(id) then Tail(replies) else replies, cookies, now) &&
      (if run.merge.Some? then run.merge.value.requests else []) ==
        (if Present(id) then [MakeRequest(Post, env.apiUrl + MERGE_PATH, Some(MergeBody(id.value, opts)), Some(tok))] else [])
  {
    LiteralMethods();
    var id := CookieIn(cookies, now, ANALYTIC_ID_COOKIE_NAME);
    if Present(id) {
      StoredTokenCall(refreshing, replies, cookies, now, "POST", env.apiUrl + MERGE_PATH, Some(MergeBody(id.value, opts)),
                      true, tok, Post);
    }
  }

  /** The merge flags default to true, each independently of the others. */
  lemma MergeFlagsDefault(id: Text, b: bool)
    ensures MergeBody(id, None) ==
      JObj([("uuid", TextJson(id)), ("merge_cart", JBool(true)), ("merge_view_history", JBool(true)), ("merge_wishlist", JBool(true))])
    ensures MergeBody(id, Some(MergeOptions(Some(b), None, None))) ==
      JObj([("uuid", TextJson(id)), ("merge_cart", JBool(b)), ("merge_view_history", JBool(true)), ("merge_wishlist", JBool(true))])
  {
  }
}
