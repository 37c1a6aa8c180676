/**
 * The client-side key-value store: the browser's cookie jar and its local
 * storage, and the helpers over them (src/lib/cookie-manipulation.ts).
 */
module ClientStore {
  import opened Wrappers
  import opened JsonDoc

  /** Lifetimes in minutes, at their defaults. */
  const ACCESS_TOKEN_EXPIRY: int := 59
  const REFRESH_TOKEN_EXPIRY: int := 43200
  const CART_ALIVE_TIME: int := 525600
  const ANALYTIC_ID_EXPIRY: int := 525600
  const WISHLIST_ALIVE_TIME: int := 525600

  /** Cookie names; the analytic id uses the same name in local storage. */
  const CART_COOKIE_NAME: string := "hex_cart"
  const ANALYTIC_ID_COOKIE_NAME: string := "analytic_id"
  const WISHLIST_COOKIE_NAME: string := "wishlist"
  const ACCESS_TOKEN: string := "access_token"
  const USERNAME: string := "username"

  const MS_PER_MINUTE: int := 60 * 1000

  /** A stored cookie: its value and the instant (ms since the epoch) it expires. */
  datatype Cookie = Cookie(value: Text, expires: int)

  /** The value of a cookie jar's live cookie `name` at time `now`. */
  function CookieIn(cookies: map<string, Cookie>, now: int, name: string): Option<Text> {
    if name in cookies && now < cookies[name].expires then Some(cookies[name].value) else None
  }

  /** The access token a cookie jar holds at time `now`: a live, non-empty `access_token` cookie. */
  function AccessTokenIn(cookies: map<string, Cookie>, now: int): Option<Text> {
    if ACCESS_TOKEN in cookies && now < cookies[ACCESS_TOKEN].expires && TextTruthy(cookies[ACCESS_TOKEN].value)
    then Some(cookies[ACCESS_TOKEN].value) else None
  }

  /** The expiry written for a cookie that lives `minutes` from `now`. */
  function ExpiryAt(now: int, minutes: int): (t: int)
    ensures minutes > 0 ==> t > now
    ensures t - now == minutes * 60000
  {
    now + minutes * MS_PER_MINUTE
  }

  class Store {
    /** Whether a browser window exists (`typeof window !== 'undefined'`). */
    var browser: bool
    /** `Date.now()`. */
    var now: int
    var cookies: map<string, Cookie>
    var local: map<string, Text>

    constructor (browser: bool, now: int)
      ensures this.browser == browser && this.now == now
      ensures cookies == map[] && local == map[]
    {
      this.browser := browser;
      this.now := now;
      cookies := map[];
      local := map[];
    }

    /** Time passes; the browser stops returning cookies whose expiry is reached. */
    method Advance(ms: nat)
      modifies this
      ensures now == old(now) + ms
      ensures browser == old(browser) && cookies == old(cookies) && local == old(local)
    {
      now := now + ms;
    }

    method SetLocalStorage(key: string, value: Text)
      modifies this
      ensures local == if browser then old(local)[key := value] else old(local)
      ensures browser == old(browser) && now == old(now) && cookies == old(cookies)
    {
      if browser {
        local := local[key := value];
      }
    }

    /** `localStorage.getItem(key)`, or `null` without a window. */
    function GetLocalStorage(key: string): (r: Option<Text>)
      reads this
      ensures r.Some? <==> browser && key in local
      ensures r.Some? ==> r.value == local[key]
    {
      if browser && key in local then Some(local[key]) else None
    }

    method RemoveLocalStorage(key: string)
      modifies this
      ensures local == if browser then old(local) - {key} else old(local)
      ensures browser == old(browser) && now == old(now) && cookies == old(cookies)
    {
      if browser {
        local := local - {key};
      }
    }

    /** Stores `value` under `name`, expiring `minutes` from now. */
    method SetCookie(name: string, value: Text, minutes: int)
      modifies this
      ensures cookies == old(cookies)[name := Cookie(value, ExpiryAt(now, minutes))]
      ensures browser == old(browser) && now == old(now) && local == old(local)
    {
      cookies := cookies[name := Cookie(value, ExpiryAt(now, minutes))];
    }

    /** The value of an unexpired cookie `name`, or `undefined` (`None`). */
    function GetCookie(name: string): (r: Option<Text>)
      reads this
      ensures r.Some? <==> name in cookies && now < cookies[name].expires
      ensures r.Some? ==> r.value == cookies[name].value
      ensures r == CookieIn(cookies, now, name)
    {
      if name in cookies && now < cookies[name].expires then Some(cookies[name].value) else None
    }

    method RemoveCookie(name: string)
      modifies this
      ensures cookies == old(cookies) - {name}
      ensures browser == old(browser) && now == old(now) && local == old(local)
    {
      cookies := cookies - {name};
    }

    /** Removes the two session cookies, one after the other. */
    method ClearTokens()
      modifies this
      ensures cookies == old(cookies) - {ACCESS_TOKEN, USERNAME}
      ensures browser == old(browser) && now == old(now) && local == old(local)
    {
      var names := [ACCESS_TOKEN, USERNAME];
      for i := 0 to |names|
        invariant cookies == old(cookies) - set k | 0 <= k < i :: names[k]
        invariant browser == old(browser) && now == old(now) && local == old(local)
      {
        RemoveCookie(names[i]);
      }
      assert (set k | 0 <= k < |names| :: names[k]) == {ACCESS_TOKEN, USERNAME} by {
        assert names[0] == ACCESS_TOKEN && names[1] == USERNAME;
      }
    }

    /** Stores the access token; a value that is not a string is stored as the cookie library writes it. */
    method SetAccessToken(token: Text)
      modifies this
      ensures cookies == old(cookies)[ACCESS_TOKEN := Cookie(token, ExpiryAt(now, ACCESS_TOKEN_EXPIRY))]
      ensures browser == old(browser) && now == old(now) && local == old(local)
    {
      SetCookie(ACCESS_TOKEN, token, ACCESS_TOKEN_EXPIRY);
    }

    method SetUsername(username: Text)
      modifies this
      ensures cookies == old(cookies)[USERNAME := Cookie(username, ExpiryAt(now, REFRESH_TOKEN_EXPIRY))]
      ensures browser == old(browser) && now == old(now) && local == old(local)
    {
      SetCookie(USERNAME, username, REFRESH_TOKEN_EXPIRY);
    }

    /** `getCookie(name) || null`: the cookie's value when it is present and not empty. */
    function ValueOrNull(name: string): (r: Option<Text>)
      reads this
      ensures r.Some? <==> GetCookie(name).Some? && TextTruthy(GetCookie(name).value)
      ensures r.Some? ==> r == GetCookie(name)
    {
      var c := GetCookie(name);
      if c.Some? && TextTruthy(c.value) then c else None
    }

    function GetAccessToken(): (r: Option<Text>)
      reads this
      ensures r.Some? ==> TextTruthy(r.value)
      ensures r == AccessTokenIn(cookies, now)
    {
      ValueOrNull(ACCESS_TOKEN)
    }

    function GetUsername(): (r: Option<Text>)
      reads this
      ensures r.Some? ==> TextTruthy(r.value)
    {
      ValueOrNull(USERNAME)
    }

    /** `!!getUsername()`. */
    predicate IsLoggedIn()
      reads this
    {
      GetUsername().Some?
    }
  }

  /** Logged in exactly when an unexpired, non-empty username cookie is stored. */
  lemma LoggedInIff(s: Store)
    ensures s.IsLoggedIn() <==>
      USERNAME in s.cookies && s.now < s.cookies[USERNAME].expires && TextTruthy(s.cookies[USERNAME].value)
  {
  }
}
