/**
 * The request layer (src/lib/api-service.ts): method dispatch, public and
 * authenticated requests with their failure policy, the shared token
 * refresh, and the logout latch.
 *
 * The network is a stream of replies: every request whose reply the code
 * reads takes the next reply from `Session.replies`, and a request sent
 * without reading its reply is only recorded. Toasts and redirects are
 * recorded as traces.
 */
module ApiService {
  import opened Wrappers
  import opened Strings
  import opened JsonDoc
  import opened JsNumber
  import opened ClientStore
  import Cart
  import Wishlist

  // ---------------------------------------------------------------------
  // Requests

  datatype Method = Get | Post | Put | Delete

  function MethodName(m: Method): string {
    match m
    case Get => "GET"
    case Post => "POST"
    case Put => "PUT"
    case Delete => "DELETE"
  }

  /** The `switch (type.toUpperCase())` of `makeRequest`; `None` where it throws. */
  function ParseMethod(t: string): Option<Method> {
    var u := ToUpper(t);
    if u == "GET" then Some(Get)
    else if u == "POST" then Some(Post)
    else if u == "PUT" || u == "UPDATE" then Some(Put)
    else if u == "DELETE" then Some(Delete)
    else None
  }

  /** The deployment's public settings (`NEXT_PUBLIC_*`). */
  datatype Env = Env(apiUrl: string, slug: string, analyticEnabled: string, clientId: string)

  /** `isAnalyticsEnabled()`: the setting is exactly `"true"`. */
  predicate AnalyticsEnabled(env: Env) {
    env.analyticEnabled == "true"
  }

  /** A request as it leaves the client; `bearer` is the token of an `Authorization: Bearer` header. */
  datatype Request = Request(verb: Method, url: string, body: Option<Json>, bearer: Option<Text>)

  /** The request `makeRequest` sends: a body goes with POST and PUT only. */
  function MakeRequest(m: Method, url: string, data: Option<Json>, bearer: Option<Text>): (r: Request)
    ensures r.verb == m && r.url == url && r.bearer == bearer
    ensures m == Post || m == Put ==> r.body == data
    ensures m == Get || m == Delete ==> r.body.None?
  {
    Request(m, url, if m == Post || m == Put then data else None, bearer)
  }

  /** The storefront's own routes, which hold the refresh token in an httpOnly cookie. */
  const REFRESH_ROUTE: string := "/api/oauth/refresh"
  const LOGOUT_ROUTE: string := "/api/oauth/logout"
  const ACCOUNT_PAGE: string := "/account"
  const PROVIDER_LOGOUT_PATH: string := "/provider/oauth/logout/"

  function RoutePost(path: string): Request {
    Request(Post, path, None, None)
  }

  /** The URL of a public endpoint: under `/open/<slug>` unless `addSlug` is off. */
  function PublicUrl(env: Env, endpoint: string, addSlug: bool): (url: string)
    ensures addSlug ==> url == env.apiUrl + "/open/" + env.slug + endpoint
    ensures !addSlug ==> url == env.apiUrl + endpoint
  {
    if addSlug then env.apiUrl + "/open/" + env.slug + endpoint else env.apiUrl + endpoint
  }

  // ---------------------------------------------------------------------
  // Replies and the failure policy

  /** What comes back: a body, an error status with its body, or no response at all. */
  datatype Reply = Ok(data: Json) | Failed(status: int, data: Json) | NoResponse

  /** A caught error: `error.response?.status` and `error.response.data`. */
  datatype Failure = Failure(status: Option<int>, data: Json)

  function FailureOf(reply: Reply): Failure
    requires !reply.Ok?
  {
    match reply
    case Failed(st, d) => Failure(Some(st), d)
    case NoResponse => Failure(None, JNull)
  }

  /** An error raised by the client itself, such as an unsupported method: it has no response. */
  const LocalError := Failure(None, JNull)

  const BAD_REQUEST_DEFAULT: string := "Алдаатай мэдээлэл"
  const SERVER_ERROR_MESSAGE: string := "Серверт холбогдоход алдаа гарлаа. Та дахин оролдоно уу."

  /** `String(v)` / `v.toString()`; inside an array `null` prints as nothing. */
  function JsString(v: Json): string
    decreases v, 1
  {
    match v
    case JNull => "null"
    case JBool(b) => if b then "true" else "false"
    case JNum(n) => IntToString(n)
    case JStr(s) => s
    case JArr(items) => ElementsString(v, 0)
    case JObj(_) => "[object Object]"
  }

  /** The elements of the array `v` from index `i` on, joined by commas. */
  function ElementsString(v: Json, i: nat): string
    requires v.JArr? && i <= |v.items|
    decreases v, 0, |v.items| - i
  {
    if i == |v.items| then ""
    else
      var x := v.items[i];
      var t := if x.JNull? then "" else JsString(x);
      if i + 1 == |v.items| then t else t + "," + ElementsString(v, i + 1)
  }

  /** `error.response.data.message?.toString() || default`; `None` where reading `.message` throws. */
  function MessageText(data: Json): (t: Option<string>)
    ensures t.None? <==> data.JNull?
    ensures t.Some? ==> t.value != ""
  {
    match Prop(data, "message")
    case Throws => None
    case Undefined => Some(BAD_REQUEST_DEFAULT)
    case Found(m) =>
      if m.JNull? then Some(BAD_REQUEST_DEFAULT)
      else
        var s := JsString(m);
        Some(if s == "" then BAD_REQUEST_DEFAULT else s)
  }

  /** How a promise of this layer settles. */
  datatype Resolution = Resolved(value: Json) | Rejected

  /** What a `catch` block does: how the call settles, what it shows, and whether it calls `logout`. */
  datatype Outcome = Outcome(result: Resolution, shown: seq<string>, logout: bool)

  /**
   * The `catch` blocks of both senders. A 400 shows the server's message,
   * a 500 a fixed message, each only when `show`; a 401 calls `logout`
   * where `logoutOn401`. The call resolves to `null`, except that reading
   * the message of a 400 without a body throws out of the `catch`.
   */
  function CatchOutcome(f: Failure, show: bool, logoutOn401: bool): Outcome {
    if f.status == Some(400) && show then
      match MessageText(f.data)
      case None => Outcome(Rejected, [], false)
      case Some(t) => Outcome(Resolved(JNull), [t], false)
    else if f.status == Some(500) && show then
      Outcome(Resolved(JNull), [SERVER_ERROR_MESSAGE], false)
    else
      Outcome(Resolved(JNull), [], logoutOn401 && f.status == Some(401))
  }

  /** A reply read by a sender: its body, or the `catch` block. */
  function ReplyOutcome(reply: Reply, show: bool, logoutOn401: bool): Outcome {
    if reply.Ok? then Outcome(Resolved(reply.data), [], false)
    else CatchOutcome(FailureOf(reply), show, logoutOn401)
  }

  /**
   * `sendRequestToPublicAPI(type, endpoint, data, addSlug, silent)` with a
   * window present or not: the request it sends, if any, and its outcome
   * given the reply to that request.
   */
  function PublicCall(env: Env, window: bool, t: string, endpoint: string, data: Option<Json>,
                      addSlug: bool, silent: bool, reply: Reply): (Option<Request>, Outcome)
  {
    match ParseMethod(t)
    case None => (None, CatchOutcome(LocalError, !silent && window, false))
    case Some(m) =>
      (Some(MakeRequest(m, PublicUrl(env, endpoint, addSlug), data, None)),
       ReplyOutcome(reply, !silent && window, false))
  }

  // ---------------------------------------------------------------------
  // The refresh reply

  /** `response.data.key`, with a missing field read as `null`. */
  function Field(data: Json, key: string): Json {
    match Prop(data, key)
    case Found(v) => v
    case _ => JNull
  }

  /** How the refresh route's reply settles the shared refresh. */
  datatype RefreshOutcome = Renewed(token: Json, username: Json) | RefreshFailed(f: Failure)

  function RefreshResult(reply: Reply): (r: RefreshOutcome)
    ensures r.Renewed? <==> reply.Ok? && !reply.data.JNull?
    ensures r.RefreshFailed? && reply.Failed? ==> r.f.status == Some(reply.status)
  {
    match reply
    case Ok(d) =>
      // `response.data.access_token` on a `null` body throws inside `.then`.
      if d.JNull? then RefreshFailed(LocalError) else Renewed(Field(d, "access_token"), Field(d, "username"))
    case _ => RefreshFailed(FailureOf(reply))
  }

  /** The cookies a refresh may write: the tokens. */
  const TOKEN_COOKIES: set<string> := {ACCESS_TOKEN, USERNAME}
  /** The cookies ending a session may also remove: the cart and the wishlist. */
  const SESSION_COOKIES: set<string> := {ACCESS_TOKEN, USERNAME, CART_COOKIE_NAME, WISHLIST_COOKIE_NAME}

  /** `b` holds the same cookies as `a` outside `keys`. */
  ghost predicate KeptOutside(a: map<string, Cookie>, b: map<string, Cookie>, keys: set<string>) {
    forall k | k !in keys :: (k in a <==> k in b) && (k in a ==> a[k] == b[k])
  }

  function Tail(rs: seq<Reply>): seq<Reply> {
    if |rs| == 0 then [] else rs[1..]
  }

  /** The first of the replies to come; an exhausted network gives none. */
  function Head(rs: seq<Reply>): Reply {
    if |rs| == 0 then NoResponse else rs[0]
  }

  /**
   * What a `sendRequestWithToken` call comes to, read off the state it
   * starts in: how it settles and what it shows, the requests it sends, and
   * (when it does not end the session) the replies still to come, the
   * cookies and the refresh flag it leaves.
   */
  datatype TokenCall = TokenCall(outcome: Outcome, requests: seq<Request>, replies: seq<Reply>,
                                 cookies: map<string, Cookie>, refreshing: bool)

  /**
   * `sendRequestWithToken(t, endpoint, data, silent)` from the refresh flag,
   * the replies, the cookie jar and the clock. A stored token goes as the
   * Bearer header of the one request. Without one, the shared refresh is
   * joined or the refresh route posted; a renewed token is stored with the
   * user name and, when it is truthy, sent with the request; a failed
   * refresh goes through the `catch` block.
   */
  function TokenCallOf(refreshing: bool, replies: seq<Reply>, cookies: map<string, Cookie>, now: int,
                       t: string, endpoint: string, data: Option<Json>, silent: bool): TokenCall
  {
    var tok := AccessTokenIn(cookies, now);
    if tok.Some? then StoredCallOf(tok.value, refreshing, replies, cookies, t, endpoint, data, silent)
    else RefreshCallOf(refreshing, replies, cookies, now, t, endpoint, data, silent)
  }

  /** The call with `tok` stored: the method is read and the request sent with that token. */
  function StoredCallOf(tok: Text, refreshing: bool, replies: seq<Reply>, cookies: map<string, Cookie>,
                        t: string, endpoint: string, data: Option<Json>, silent: bool): TokenCall
  {
    match ParseMethod(t)
    case None => TokenCall(CatchOutcome(LocalError, !silent, true), [], replies, cookies, refreshing)
    case Some(m) =>
      TokenCall(ReplyOutcome(Head(replies), !silent, true), [MakeRequest(m, endpoint, data, Some(tok))],
                Tail(replies), cookies, refreshing)
  }

  /** The cookie jar once `refresh()` settled with `reply`: a renewed token is stored with the user name. */
  function RefreshedCookies(cookies: map<string, Cookie>, reply: Reply, now: int): map<string, Cookie> {
    match RefreshResult(reply)
    case Renewed(token, username) =>
      cookies[ACCESS_TOKEN := Cookie(AsText(token), ExpiryAt(now, ACCESS_TOKEN_EXPIRY))]
             [USERNAME := Cookie(AsText(username), ExpiryAt(now, REFRESH_TOKEN_EXPIRY))]
    case RefreshFailed(_) => cookies
  }

  /**
   * The rest of the call once the refresh settled with `rr`: a failure goes
   * through the `catch` block, a falsy token ends the call with `null`, and
   * a truthy one is used as a stored token.
   */
  function AfterRefreshOf(rr: RefreshOutcome, replies: seq<Reply>, cookies: map<string, Cookie>,
                          t: string, endpoint: string, data: Option<Json>, silent: bool): TokenCall
  {
    match rr
    case RefreshFailed(f) => TokenCall(CatchOutcome(f, !silent, true), [], replies, cookies, false)
    case Renewed(token, _) =>
      if !Truthy(token) then TokenCall(Outcome(Resolved(JNull), [], false), [], replies, cookies, false)
      else StoredCallOf(AsText(token), false, replies, cookies, t, endpoint, data, silent)
  }

  /** The call without a stored token: the shared refresh joined or posted, then the rest with its result. */
  function RefreshCallOf(refreshing: bool, replies: seq<Reply>, cookies: map<string, Cookie>, now: int,
                         t: string, endpoint: string, data: Option<Json>, silent: bool): TokenCall
  {
    var route := if refreshing then [] else [RoutePost(REFRESH_ROUTE)];
    var rest := AfterRefreshOf(RefreshResult(Head(replies)), Tail(replies), RefreshedCookies(cookies, Head(replies), now),
                               t, endpoint, data, silent);
    rest.(requests := route + rest.requests)
  }

  // ---------------------------------------------------------------------
  // The session

  class Session {
    const env: Env
    const store: Store
    /** `isRefreshing` together with `refreshPromise`: a refresh is outstanding. */
    var refreshing: bool
    /** `isLoggingOut`. */
    var loggingOut: bool
    /** Every request sent, in order. */
    var sent: seq<Request>
    /** The replies the network will give, in order. */
    var replies: seq<Reply>
    /** Every toast shown, in order. */
    var toasts: seq<string>
    /** Every assignment to `window.location.href`, in order. */
    var redirects: seq<string>

    /** The session ends (clears and redirect) at most once, and only after the latch is set. */
    ghost predicate Valid()
      reads this
    {
      |redirects| <= 1 && (!loggingOut ==> redirects == []) &&
      forall i | 0 <= i < |redirects| :: redirects[i] == ACCOUNT_PAGE
    }

    constructor (env: Env, store: Store, replies: seq<Reply>)
      ensures Valid()
      ensures this.env == env && this.store == store && this.replies == replies
      ensures !refreshing && !loggingOut && sent == [] && toasts == [] && redirects == []
    {
      this.env := env;
      this.store := store;
      this.replies := replies;
      refreshing := false;
      loggingOut := false;
      sent := [];
      toasts := [];
      redirects := [];
    }

    /** The reply the next request that reads one will get; an exhausted network gives none. */
    function NextReply(): Reply
      reads this
    {
      Head(replies)
    }

    /** Sends `r` and takes its reply. */
    method Exchange(r: Request) returns (reply: Reply)
      modifies this
      ensures reply == old(NextReply())
      ensures sent == old(sent) + [r] && replies == Tail(old(replies))
      ensures refreshing == old(refreshing) && loggingOut == old(loggingOut)
      ensures toasts == old(toasts) && redirects == old(redirects)
    {
      reply := NextReply();
      sent := sent + [r];
      replies := Tail(replies);
    }

    /** `sendRequestToPublicAPI`. */
    method SendPublic(t: string, endpoint: string, data: Option<Json>, addSlug: bool, silent: bool)
      returns (r: Resolution)
      modifies this
      ensures var (req, o) := PublicCall(env, store.browser, t, endpoint, data, addSlug, silent, old(NextReply()));
        r == o.result && toasts == old(toasts) + o.shown &&
        sent == old(sent) + (if req.Some? then [req.value] else []) &&
        replies == (if req.Some? then Tail(old(replies)) else old(replies))
      ensures refreshing == old(refreshing) && loggingOut == old(loggingOut) && redirects == old(redirects)
    {
      var show := !silent && store.browser;
      var m := ParseMethod(t);
      var o;
      if m.None? {
        o := CatchOutcome(LocalError, show, false);
      } else {
        var reply := Exchange(MakeRequest(m.value, PublicUrl(env, endpoint, addSlug), data, None));
        o := ReplyOutcome(reply, show, false);
      }
      toasts := toasts + o.shown;
      r := o.result;
    }

    /** The clears and the redirect that end a session. */
    method EndSession()
      requires Valid() && loggingOut && redirects == []
      modifies this, store
      ensures Valid() && redirects == [ACCOUNT_PAGE]
      ensures KeptOutside(old(store.cookies), store.cookies, SESSION_COOKIES)
      ensures store.cookies ==
        (if store.browser then old(store.cookies) - {CART_COOKIE_NAME, WISHLIST_COOKIE_NAME} else old(store.cookies))
        - {ACCESS_TOKEN, USERNAME}
      ensures store.browser == old(store.browser) && store.now == old(store.now) && store.local == old(store.local)
      ensures Cart.GetCart(store) == [] && Wishlist.GetWishlist(store) == [] && !store.IsLoggedIn()
      ensures refreshing == old(refreshing) && loggingOut && sent == old(sent) && replies == old(replies)
      ensures toasts == old(toasts)
    {
      Cart.ClearCart(store);
      Wishlist.ClearWishlist(store);
      store.ClearTokens();
      redirects := redirects + [ACCOUNT_PAGE];
    }

    /** `refresh()` up to its first await: joins an outstanding refresh or posts to the refresh route. */
    method BeginRefresh() returns (joined: bool)
      modifies this
      ensures joined == old(refreshing) && refreshing
      ensures sent == if joined then old(sent) else old(sent) + [RoutePost(REFRESH_ROUTE)]
      ensures replies == old(replies) && loggingOut == old(loggingOut)
      ensures toasts == old(toasts) && redirects == old(redirects)
    {
      joined := refreshing;
      if !joined {
        refreshing := true;
        sent := sent + [RoutePost(REFRESH_ROUTE)];
      }
    }

    /**
     * The shared refresh settles with the route's reply. On success the
     * token and user name are stored and the token is the result; on a 401
     * with the latch unset the latch is set and the session ends. Both flags
     * are cleared either way. `None` is a rejected refresh.
     */
    method CompleteRefresh() returns (token: Option<Json>)
      requires Valid() && refreshing
      modifies this, store
      ensures Valid() && !refreshing
      ensures KeptOutside(old(store.cookies), store.cookies, SESSION_COOKIES)
      ensures old(sent) <= sent && old(toasts) <= toasts
      ensures replies == Tail(old(replies)) && toasts == old(toasts)
      ensures store.browser == old(store.browser) && store.now == old(store.now) && store.local == old(store.local)
      ensures match RefreshResult(old(NextReply()))
        case Renewed(t, u) =>
          token == Some(t) &&
          store.cookies == old(store.cookies)
            [ACCESS_TOKEN := Cookie(AsText(t), ExpiryAt(store.now, ACCESS_TOKEN_EXPIRY))]
            [USERNAME := Cookie(AsText(u), ExpiryAt(store.now, REFRESH_TOKEN_EXPIRY))] &&
          loggingOut == old(loggingOut) && sent == old(sent) && redirects == old(redirects)
        case RefreshFailed(f) =>
          token.None? &&
          if f.status == Some(401) && !old(loggingOut) then
            loggingOut && sent == old(sent) + [RoutePost(LOGOUT_ROUTE)] && redirects == [ACCOUNT_PAGE] &&
            Cart.GetCart(store) == [] && Wishlist.GetWishlist(store) == [] && !store.IsLoggedIn()
          else
            loggingOut == old(loggingOut) && sent == old(sent) && redirects == old(redirects) &&
            store.cookies == old(store.cookies)
    {
      var reply := NextReply();
      replies := Tail(replies);
      var res := RefreshResult(reply);
      match res {
        case Renewed(t, u) =>
          store.SetAccessToken(AsText(t));
          store.SetUsername(AsText(u));
          token := Some(t);
        case RefreshFailed(f) =>
          if f.status == Some(401) && !loggingOut {
            loggingOut := true;
            sent := sent + [RoutePost(LOGOUT_ROUTE)];
            EndSession();
          }
          token := None;
      }
      refreshing := false;
    }

    /** The `catch` block of `sendRequestWithToken`. */
    method Catch(f: Failure, silent: bool) returns (r: Resolution)
      requires Valid()
      modifies this, store
      decreases if loggingOut then 1 else 8
      ensures Valid() && (old(loggingOut) ==> loggingOut)
      ensures KeptOutside(old(store.cookies), store.cookies, SESSION_COOKIES)
      ensures silent ==> r.Resolved?
      ensures old(sent) <= sent && old(toasts) <= toasts
      ensures var o := CatchOutcome(f, !silent, true);
        r == o.result && old(toasts) + o.shown <= toasts &&
        (!o.logout ==> loggingOut == old(loggingOut)) &&
        (loggingOut == old(loggingOut) ==>
           toasts == old(toasts) + o.shown && sent == old(sent) && replies == old(replies) &&
           refreshing == old(refreshing) && redirects == old(redirects) && store.cookies == old(store.cookies)) &&
        (o.logout && !old(loggingOut) ==>
           redirects == [ACCOUNT_PAGE] && Cart.GetCart(store) == [] && Wishlist.GetWishlist(store) == [] && !store.IsLoggedIn())
      ensures old(loggingOut) ==> redirects == old(redirects)
      ensures !old(refreshing) ==> !refreshing
      ensures store.browser == old(store.browser) && store.now == old(store.now) && store.local == old(store.local)
    {
      var o := CatchOutcome(f, !silent, true);
      toasts := toasts + o.shown;
      if o.logout {
        Logout();
      }
      r := o.result;
    }

    /** `sendRequestWithToken(type, endpoint, data, silent)`. */
    method SendWithToken(t: string, endpoint: string, data: Option<Json>, silent: bool) returns (r: Resolution)
      requires Valid()
      modifies this, store
      decreases if loggingOut then 6 else 13
      ensures Valid() && (old(loggingOut) ==> loggingOut)
      ensures KeptOutside(old(store.cookies), store.cookies, SESSION_COOKIES)
      ensures silent ==> r.Resolved?
      ensures old(sent) <= sent && old(toasts) <= toasts
      ensures old(loggingOut) ==> redirects == old(redirects)
      ensures !old(refreshing) ==> !refreshing
      ensures store.browser == old(store.browser) && store.now == old(store.now) && store.local == old(store.local)
      ensures var c := TokenCallOf(old(refreshing), old(replies), old(store.cookies), store.now, t, endpoint, data, silent);
        r == c.outcome.result && old(sent) + c.requests <= sent && old(toasts) + c.outcome.shown <= toasts &&
        (loggingOut == old(loggingOut) ==>
           sent == old(sent) + c.requests && toasts == old(toasts) + c.outcome.shown && replies == c.replies &&
           store.cookies == c.cookies && refreshing == c.refreshing && redirects == old(redirects))
    {
      var tok := store.GetAccessToken();
      if tok.Some? {
        r := WithStoredToken(t, endpoint, data, silent, tok.value);
      } else {
        r := WithRefreshedToken(t, endpoint, data, silent);
      }
    }

    /** `sendRequestWithToken` when a token is stored: the method is read and the request sent with it. */
    method WithStoredToken(t: string, endpoint: string, data: Option<Json>, silent: bool, tok: Text)
      returns (r: Resolution)
      requires Valid() && store.GetAccessToken() == Some(tok)
      modifies this, store
      decreases if loggingOut then 3 else 10
      ensures Valid() && (old(loggingOut) ==> loggingOut)
      ensures KeptOutside(old(store.cookies), store.cookies, SESSION_COOKIES)
      ensures silent ==> r.Resolved?
      ensures old(sent) <= sent && old(toasts) <= toasts
      ensures old(loggingOut) ==> redirects == old(redirects)
      ensures !old(refreshing) ==> !refreshing
      ensures store.browser == old(store.browser) && store.now == old(store.now) && store.local == old(store.local)
      ensures var c := StoredCallOf(tok, old(refreshing), old(replies), old(store.cookies), t, endpoint, data, silent);
        r == c.outcome.result && old(sent) + c.requests <= sent && old(toasts) + c.outcome.shown <= toasts &&
        (loggingOut == old(loggingOut) ==>
           sent == old(sent) + c.requests && toasts == old(toasts) + c.outcome.shown && replies == c.replies &&
           store.cookies == c.cookies && refreshing == c.refreshing && redirects == old(redirects))
    {
      var m := ParseMethod(t);
      if m.None? {
        r := Catch(LocalError, silent);
        return;
      }
      r := Authorized(m.value, endpoint, data, Some(tok), silent);
    }

    /** `sendRequestWithToken` without a stored token: the shared refresh first, then the request with its token. */
    method WithRefreshedToken(t: string, endpoint: string, data: Option<Json>, silent: bool)
      returns (r: Resolution)
      requires Valid() && store.GetAccessToken().None?
      modifies this, store
      decreases if loggingOut then 5 else 12
      ensures Valid() && (old(loggingOut) ==> loggingOut)
      ensures KeptOutside(old(store.cookies), store.cookies, SESSION_COOKIES)
      ensures silent ==> r.Resolved?
      ensures old(sent) <= sent && old(toasts) <= toasts
      ensures old(loggingOut) ==> redirects == old(redirects)
      ensures !old(refreshing) ==> !refreshing
      ensures store.browser == old(store.browser) && store.now == old(store.now) && store.local == old(store.local)
      ensures var c := RefreshCallOf(old(refreshing), old(replies), old(store.cookies), store.now, t, endpoint, data, silent);
        r == c.outcome.result && old(sent) + c.requests <= sent && old(toasts) + c.outcome.shown <= toasts &&
        (loggingOut == old(loggingOut) ==>
           sent == old(sent) + c.requests && toasts == old(toasts) + c.outcome.shown && replies == c.replies &&
           store.cookies == c.cookies && refreshing == c.refreshing && redirects == old(redirects))
    {
      var rr := Refresh();
      r := AfterRefresh(t, endpoint, data, silent, rr);
    }

    /** `refresh()` as a whole: the shared refresh joined or posted, then settled with the route's reply. */
    method Refresh() returns (rr: RefreshOutcome)
      requires Valid()
      modifies this, store
      ensures rr == RefreshResult(old(NextReply()))
      ensures Valid() && !refreshing && (old(loggingOut) ==> loggingOut)
      ensures KeptOutside(old(store.cookies), store.cookies, SESSION_COOKIES)
      ensures replies == Tail(old(replies)) && toasts == old(toasts)
      ensures store.browser == old(store.browser) && store.now == old(store.now) && store.local == old(store.local)
      ensures old(loggingOut) ==> redirects == old(redirects)
      ensures var route := if old(refreshing) then [] else [RoutePost(REFRESH_ROUTE)];
        old(sent) + route <= sent &&
        (rr.Renewed? ==> loggingOut == old(loggingOut)) &&
        (loggingOut == old(loggingOut) ==>
           sent == old(sent) + route && redirects == old(redirects) &&
           store.cookies == RefreshedCookies(old(store.cookies), old(NextReply()), store.now))
      ensures rr.Renewed? && Truthy(rr.token) ==> store.GetAccessToken() == Some(AsText(rr.token))
    {
      rr := RefreshResult(NextReply());
      var joined := BeginRefresh();
      var renewed := CompleteRefresh();
    }

    /** The rest of `sendRequestWithToken` once `refresh()` settled with `rr`. */
    method AfterRefresh(t: string, endpoint: string, data: Option<Json>, silent: bool, rr: RefreshOutcome)
      returns (r: Resolution)
      requires Valid()
      requires rr.Renewed? && Truthy(rr.token) ==> store.GetAccessToken() == Some(AsText(rr.token))
      modifies this, store
      decreases if loggingOut then 4 else 11
      ensures Valid() && (old(loggingOut) ==> loggingOut)
      ensures KeptOutside(old(store.cookies), store.cookies, SESSION_COOKIES)
      ensures silent ==> r.Resolved?
      ensures old(sent) <= sent && old(toasts) <= toasts
      ensures old(loggingOut) ==> redirects == old(redirects)
      ensures !old(refreshing) ==> !refreshing
      ensures store.browser == old(store.browser) && store.now == old(store.now) && store.local == old(store.local)
      ensures var c := AfterRefreshOf(rr, old(replies), old(store.cookies), t, endpoint, data, silent);
        r == c.outcome.result && old(sent) + c.requests <= sent && old(toasts) + c.outcome.shown <= toasts &&
        (loggingOut == old(loggingOut) ==>
           sent == old(sent) + c.requests && toasts == old(toasts) + c.outcome.shown && replies == c.replies &&
           store.cookies == c.cookies && (!old(refreshing) ==> refreshing == c.refreshing) && redirects == old(redirects))
    {
      match rr {
        case RefreshFailed(f) =>
          r := Catch(f, silent);
        case Renewed(token, _) =>
          if !Truthy(token) {
            return Resolved(JNull);
          }
          r := WithStoredToken(t, endpoint, data, silent, AsText(token));
      }
    }

    /** The request itself, once the method is known and a token is at hand, and its `catch` block. */
    method Authorized(m: Method, endpoint: string, data: Option<Json>, token: Option<Text>, silent: bool)
      returns (r: Resolution)
      requires Valid()
      modifies this, store
      decreases if loggingOut then 2 else 9
      ensures Valid() && (old(loggingOut) ==> loggingOut)
      ensures KeptOutside(old(store.cookies), store.cookies, SESSION_COOKIES)
      ensures silent ==> r.Resolved?
      ensures old(sent) <= sent && old(toasts) <= toasts
      ensures old(loggingOut) ==> redirects == old(redirects)
      ensures !old(refreshing) ==> !refreshing
      ensures store.browser == old(store.browser) && store.now == old(store.now) && store.local == old(store.local)
      ensures var o := ReplyOutcome(old(NextReply()), !silent, true);
        var req := MakeRequest(m, endpoint, data, token);
        r == o.result && old(sent) + [req] <= sent && old(toasts) + o.shown <= toasts &&
        (!o.logout ==> loggingOut == old(loggingOut)) &&
        (loggingOut == old(loggingOut) ==>
           sent == old(sent) + [req] && toasts == old(toasts) + o.shown && replies == Tail(old(replies)) &&
           store.cookies == old(store.cookies) && refreshing == old(refreshing) && redirects == old(redirects))
    {
      var reply := Exchange(MakeRequest(m, endpoint, data, token));
      if reply.Ok? {
        return Resolved(reply.data);
      }
      r := Catch(FailureOf(reply), silent);
    }

    /**
     * `logout()`: with the latch set it does nothing; otherwise it sets the
     * latch, asks the provider to end the session, posts to the logout
     * route unless that request threw, and then ends the session.
     */
    method Logout()
      requires Valid()
      modifies this, store
      decreases if loggingOut then 0 else 7
      ensures Valid() && loggingOut
      ensures KeptOutside(old(store.cookies), store.cookies, SESSION_COOKIES)
      ensures old(sent) <= sent && old(toasts) <= toasts
      ensures old(loggingOut) ==> unchanged(this) && unchanged(store)
      ensures !old(loggingOut) ==>
        redirects == [ACCOUNT_PAGE] && Cart.GetCart(store) == [] && Wishlist.GetWishlist(store) == [] && !store.IsLoggedIn()
      // The provider request goes out as any authenticated call would; the latch is already set, so a 401 in it ends nothing.
      ensures !old(loggingOut) ==>
        var c := TokenCallOf(old(refreshing), old(replies), old(store.cookies), store.now, "POST", env.apiUrl + PROVIDER_LOGOUT_PATH,
                             Some(JObj([("client_id", JStr(env.clientId))])), false);
        sent == old(sent) + c.requests + (if c.outcome.result.Resolved? then [RoutePost(LOGOUT_ROUTE)] else []) &&
        toasts == old(toasts) + c.outcome.shown && replies == c.replies && refreshing == c.refreshing &&
        store.cookies ==
          (if store.browser then c.cookies - {CART_COOKIE_NAME, WISHLIST_COOKIE_NAME} else c.cookies) - {ACCESS_TOKEN, USERNAME}
      ensures !old(refreshing) ==> !refreshing
      ensures store.browser == old(store.browser) && store.now == old(store.now) && store.local == old(store.local)
    {
      if loggingOut {
        return;
      }
      loggingOut := true;
      var r := SendWithToken("POST", env.apiUrl + PROVIDER_LOGOUT_PATH,
                             Some(JObj([("client_id", JStr(env.clientId))])), false);
      if r.Resolved? {
        sent := sent + [RoutePost(LOGOUT_ROUTE)];
      }
      EndSession();
    }
  }

  // ---------------------------------------------------------------------
  // Properties

  /** `makeRequest` accepts exactly five method names, in any case. */
  lemma ParseMethodAccepts(t: string)
    ensures ParseMethod(t).Some? <==> ToUpper(t) in {"GET", "POST", "PUT", "UPDATE", "DELETE"}
  {
  }

  /** The method name is read case-insensitively. */
  lemma ParseMethodCaseInsensitive(t: string)
    ensures ParseMethod(ToUpper(t)) == ParseMethod(t)
  {
    ToUpperIdempotent(t);
  }

  /** Each method is recognised by its own name, `UPDATE` is sent as PUT, and lower case works too. */
  lemma ParseMethodNames(m: Method)
    ensures ParseMethod(MethodName(m)) == Some(m)
    ensures ParseMethod("update") == Some(Put) && ParseMethod("get") == Some(Get)
  {
    assert ParseMethod(MethodName(m)) == Some(m) by { UpperCaseFixed(MethodName(m)); }
    assert ParseMethod("update") == Some(Put) by { LowerCaseNames(); }
    assert ParseMethod("get") == Some(Get) by { LowerCaseNames(); }
  }

  /** The two method names the analytics calls use, already upper case. */
  lemma LiteralMethods()
    ensures ParseMethod("POST") == Some(Post) && ParseMethod("GET") == Some(Get)
  {
    UpperCaseFixed("POST");
    UpperCaseFixed("GET");
  }

  /** Text already in upper case is left as it is. */
  lemma UpperCaseFixed(s: string)
    requires forall i | 0 <= i < |s| :: 'A' <= s[i] <= 'Z'
    ensures ToUpper(s) == s
  {
    var u := ToUpper(s);
    assert forall i | 0 <= i < |s| :: u[i] == s[i];
  }

  lemma LowerCaseNames()
    ensures ToUpper("update") == "UPDATE" && ToUpper("get") == "GET"
  {
    var u := ToUpper("update");
    assert forall i | 0 <= i < 6 :: u[i] == "UPDATE"[i];
    var g := ToUpper("get");
    assert forall i | 0 <= i < 3 :: g[i] == "GET"[i];
  }

  /** A failed public request always resolves to `null`, never calls `logout`, and rejects only on a 400 without a body. */
  lemma PublicFailureIsNull(env: Env, window: bool, t: string, endpoint: string, data: Option<Json>,
                            addSlug: bool, silent: bool, reply: Reply)
    requires !reply.Ok? || ParseMethod(t).None?
    ensures var o := PublicCall(env, window, t, endpoint, data, addSlug, silent, reply).1;
      !o.logout &&
      (o.result == Resolved(JNull) ||
       (o.result == Rejected && reply == Failed(400, JNull) && !silent && window && ParseMethod(t).Some?))
  {
  }

  /** A silent request shows nothing and settles to its body or `null`. */
  lemma SilentShowsNothing(env: Env, window: bool, t: string, endpoint: string, data: Option<Json>,
                           addSlug: bool, reply: Reply)
    ensures var o := PublicCall(env, window, t, endpoint, data, addSlug, true, reply).1;
      o.shown == [] &&
      o.result == (if reply.Ok? && ParseMethod(t).Some? then Resolved(reply.data) else Resolved(JNull))
  {
  }

  /** Without a window a public request shows nothing either. */
  lemma NoWindowShowsNothing(env: Env, t: string, endpoint: string, data: Option<Json>,
                             addSlug: bool, silent: bool, reply: Reply)
    ensures PublicCall(env, false, t, endpoint, data, addSlug, silent, reply).1.shown == []
  {
  }

  /** Every toast of the failure policy has text, and a 400 with a message shows that message. */
  lemma ToastsHaveText(f: Failure, show: bool, logoutOn401: bool, msg: string)
    ensures forall i | 0 <= i < |CatchOutcome(f, show, logoutOn401).shown| :: CatchOutcome(f, show, logoutOn401).shown[i] != ""
    ensures msg != "" && f == Failure(Some(400), JObj([("message", JStr(msg))])) && show ==>
      CatchOutcome(f, show, logoutOn401).shown == [msg]
  {
  }

  /** Only a 401 calls `logout`, and only on the authenticated path. */
  lemma OnlyUnauthorizedLogsOut(f: Failure, show: bool, logoutOn401: bool)
    ensures CatchOutcome(f, show, logoutOn401).logout <==> logoutOn401 && f.status == Some(401)
  {
  }

  /** With a token stored and a supported method, the one request carries that token and nothing else changes. */
  lemma StoredTokenCall(refreshing: bool, replies: seq<Reply>, cookies: map<string, Cookie>, now: int,
                        t: string, endpoint: string, data: Option<Json>, silent: bool, tok: Text, m: Method)
    requires AccessTokenIn(cookies, now) == Some(tok) && ParseMethod(t) == Some(m)
    ensures var c := TokenCallOf(refreshing, replies, cookies, now, t, endpoint, data, silent);
      c.requests == [MakeRequest(m, endpoint, data, Some(tok))] && c.requests[0].bearer == Some(tok) &&
      c.outcome == ReplyOutcome(Head(replies), !silent, true) && c.replies == Tail(replies) &&
      c.cookies == cookies && c.refreshing == refreshing
  {
  }

  /** A stored token survives every call that does not end the session. */
  lemma StoredTokenKept(refreshing: bool, replies: seq<Reply>, cookies: map<string, Cookie>, now: int,
                        t: string, endpoint: string, data: Option<Json>, silent: bool)
    requires AccessTokenIn(cookies, now).Some?
    ensures var c := TokenCallOf(refreshing, replies, cookies, now, t, endpoint, data, silent);
      c.cookies == cookies && AccessTokenIn(c.cookies, now) == AccessTokenIn(cookies, now)
  {
  }

  /**
   * Without a stored token, a refresh that renews a truthy token sends the
   * refresh (unless one is outstanding) and then the request with the new
   * token, settles with the reply after the refresh, and leaves the new
   * token and user name stored.
   */
  lemma RenewedTokenCall(refreshing: bool, replies: seq<Reply>, cookies: map<string, Cookie>, now: int,
                         t: string, endpoint: string, data: Option<Json>, silent: bool, m: Method)
    requires AccessTokenIn(cookies, now).None? && ParseMethod(t) == Some(m)
    requires RefreshResult(Head(replies)).Renewed? && Truthy(RefreshResult(Head(replies)).token)
    ensures var rr := RefreshResult(Head(replies));
      var c := TokenCallOf(refreshing, replies, cookies, now, t, endpoint, data, silent);
      c.requests == (if refreshing then [] else [RoutePost(REFRESH_ROUTE)]) +
                    [MakeRequest(m, endpoint, data, Some(AsText(rr.token)))] &&
      c.outcome == ReplyOutcome(Head(Tail(replies)), !silent, true) && c.replies == Tail(Tail(replies)) &&
      AccessTokenIn(c.cookies, now) == Some(AsText(rr.token)) &&
      USERNAME in c.cookies && c.cookies[USERNAME].value == AsText(rr.username) && !c.refreshing
  {
    var rr := RefreshResult(Head(replies));
    var c := TokenCallOf(refreshing, replies, cookies, now, t, endpoint, data, silent);
    assert c.cookies[ACCESS_TOKEN] == Cookie(AsText(rr.token), ExpiryAt(now, ACCESS_TOKEN_EXPIRY));
  }

  /** Without a stored token, a refresh that yields a falsy token stores it, sends nothing more and settles with `null`. */
  lemma FalsyTokenCall(refreshing: bool, replies: seq<Reply>, cookies: map<string, Cookie>, now: int,
                       t: string, endpoint: string, data: Option<Json>, silent: bool)
    requires AccessTokenIn(cookies, now).None?
    requires RefreshResult(Head(replies)).Renewed? && !Truthy(RefreshResult(Head(replies)).token)
    ensures var c := TokenCallOf(refreshing, replies, cookies, now, t, endpoint, data, silent);
      c.requests == (if refreshing then [] else [RoutePost(REFRESH_ROUTE)]) &&
      c.outcome == Outcome(Resolved(JNull), [], false) && c.replies == Tail(replies)
  {
  }

  /** Without a stored token, a failed refresh sends only the refresh and goes through the `catch` block; no token is stored. */
  lemma FailedRefreshCall(refreshing: bool, replies: seq<Reply>, cookies: map<string, Cookie>, now: int,
                          t: string, endpoint: string, data: Option<Json>, silent: bool)
    requires AccessTokenIn(cookies, now).None? && RefreshResult(Head(replies)).RefreshFailed?
    ensures var c := TokenCallOf(refreshing, replies, cookies, now, t, endpoint, data, silent);
      c.requests == (if refreshing then [] else [RoutePost(REFRESH_ROUTE)]) &&
      c.outcome == CatchOutcome(RefreshResult(Head(replies)).f, !silent, true) &&
      c.cookies == cookies && AccessTokenIn(c.cookies, now).None? && c.replies == Tail(replies)
  {
  }

  /** A `catch` block that shows nothing resolves. */
  lemma QuietCatch(f: Failure, logoutOn401: bool)
    ensures CatchOutcome(f, false, logoutOn401).shown == [] && CatchOutcome(f, false, logoutOn401).result.Resolved?
  {
  }

  /** A silent call with a stored token shows nothing and resolves. */
  lemma SilentStoredCall(tok: Text, refreshing: bool, replies: seq<Reply>, cookies: map<string, Cookie>,
                         t: string, endpoint: string, data: Option<Json>)
    ensures var c := StoredCallOf(tok, refreshing, replies, cookies, t, endpoint, data, true);
      c.outcome.shown == [] && c.outcome.result.Resolved?
  {
    QuietCatch(LocalError, true);
    if !Head(replies).Ok? {
      QuietCatch(FailureOf(Head(replies)), true);
    }
  }

  /** A silent call shows nothing and resolves. */
  lemma SilentTokenCall(refreshing: bool, replies: seq<Reply>, cookies: map<string, Cookie>, now: int,
                        t: string, endpoint: string, data: Option<Json>)
    ensures var c := TokenCallOf(refreshing, replies, cookies, now, t, endpoint, data, true);
      c.outcome.shown == [] && c.outcome.result.Resolved?
  {
    var tok := AccessTokenIn(cookies, now);
    if tok.Some? {
      SilentStoredCall(tok.value, refreshing, replies, cookies, t, endpoint, data);
    } else {
      match RefreshResult(Head(replies)) {
        case RefreshFailed(f) =>
          QuietCatch(f, true);
        case Renewed(token, _) =>
          SilentStoredCall(AsText(token), false, Tail(replies), RefreshedCookies(cookies, Head(replies), now), t, endpoint, data);
      }
    }
  }

  /** A call with a token writes no cookie but the token and the user name. */
  lemma TokenCallKeeps(refreshing: bool, replies: seq<Reply>, cookies: map<string, Cookie>, now: int,
                       t: string, endpoint: string, data: Option<Json>, silent: bool)
    ensures KeptOutside(cookies, TokenCallOf(refreshing, replies, cookies, now, t, endpoint, data, silent).cookies, TOKEN_COOKIES)
  {
    if AccessTokenIn(cookies, now).None? {
      var rc := RefreshedCookies(cookies, Head(replies), now);
      assert KeptOutside(cookies, rc, TOKEN_COOKIES);
      assert AfterRefreshOf(RefreshResult(Head(replies)), Tail(replies), rc, t, endpoint, data, silent).cookies == rc;
    }
  }

  /** However often `logout` runs, the session ends once. */
  method LogoutTwice(env: Env, store: Store, replies: seq<Reply>) returns (ends: nat)
    modifies store
    ensures ends == 1
  {
    var s := new Session(env, store, replies);
    s.Logout();
    s.Logout();
    ends := |s.redirects|;
  }
}
