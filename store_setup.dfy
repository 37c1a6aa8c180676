/**
 * The store-setup hook (src/store/useStoreSetup.ts): the settings come from
 * a local-storage cache while it is younger than five minutes, and are
 * otherwise fetched from the public API and cached with the time the fetch
 * started.
 */
module StoreSetup {
  import opened Wrappers
  import opened JsonDoc
  import opened JsNumber
  import opened ClientStore
  import opened ApiService

  const CACHE_KEY: string := "store_setup_cache"
  /** Five minutes, in milliseconds. */
  const CACHE_TTL: int := 5 * 60 * 1000
  const SETUP_ENDPOINT: string := "/setup/get/"

  /** The `setup` state: the placeholder settings, or the settings document the hook was given. */
  datatype Setup = Placeholder | Loaded(data: Json)

  /** What the effect makes of the cached text at time `now`. */
  datatype CacheVerdict =
    | Missing          // nothing, or the empty string: fetch
    | Corrupt          // unparsable, `null`, or fresh with no data: error and rethrow
    | Stale            // too old, or without a usable timestamp: fetch
    | Usable(data: Json)

  /** `parsed.data == null` is false: present and not `null`. */
  predicate HasData(doc: Json) {
    Prop(doc, "data").Found? && !Prop(doc, "data").v.JNull?
  }

  /** `now - parsed.timestamp < CACHE_TTL`, with `parsed.timestamp` converted as `-` converts it. */
  predicate Fresh(doc: Json, now: int)
    requires !doc.JNull?
  {
    var ts := match Prop(doc, "timestamp") case Found(v) => NumberOf(v) case _ => NaN;
    ts.Int? && now - ts.i < CACHE_TTL
  }

  function Verdict(cached: Option<Text>, now: int): (v: CacheVerdict)
    ensures v.Usable? ==>
      cached.Some? && Parse(cached.value).Some? && HasData(Parse(cached.value).value) &&
      v.data == Prop(Parse(cached.value).value, "data").v
    ensures v.Missing? <==> cached.None? || !TextTruthy(cached.value)
  {
    if cached.None? || !TextTruthy(cached.value) then Missing
    else match Parse(cached.value)
      case None => Corrupt
      case Some(doc) =>
        if doc.JNull? then Corrupt
        else if !Fresh(doc, now) then Stale
        else if !HasData(doc) then Corrupt
        else Usable(Prop(doc, "data").v)
  }

  /** The entry written after a fetch that started at `now`. */
  function CacheEntry(data: Json, now: int): Text {
    Plain(JObj([("timestamp", JNum(now)), ("data", data)]))
  }

  function SetupRequest(env: Env): Request {
    MakeRequest(Get, PublicUrl(env, SETUP_ENDPOINT, true), None, None)
  }

  class StoreSetupHook {
    var setup: Setup
    var isLoading: bool
    var isError: bool

    constructor ()
      ensures setup == Placeholder && isLoading && !isError
    {
      setup := Placeholder;
      isLoading := true;
      isError := false;
    }

    /**
     * The mount effect at time `now`, run once on the initial state and to
     * completion: the fetch, when
     * there is one, is taken as settling before anything else happens.
     * `thrown` is the error the effect rethrows for a corrupt cache.
     */
    method Mount(s: Session, now: int) returns (thrown: bool)
      requires s.store.browser
      requires setup == Placeholder && isLoading && !isError
      modifies this, s, s.store
      ensures !isLoading
      ensures s.store.browser == old(s.store.browser) && s.store.now == old(s.store.now)
      ensures s.store.cookies == old(s.store.cookies)
      ensures s.refreshing == old(s.refreshing) && s.loggingOut == old(s.loggingOut) && s.redirects == old(s.redirects)
      ensures thrown <==> Verdict(old(s.store.GetLocalStorage(CACHE_KEY)), now).Corrupt?
      ensures match Verdict(old(s.store.GetLocalStorage(CACHE_KEY)), now)
        case Usable(d) =>
          setup == Loaded(d) && !isError && unchanged(s) && s.store.local == old(s.store.local)
        case Corrupt =>
          setup == Placeholder && isError && unchanged(s) && s.store.local == old(s.store.local)
        case _ =>
          var (req, o) := PublicCall(s.env, true, "GET", SETUP_ENDPOINT, None, true, false, old(s.NextReply()));
          req == Some(SetupRequest(s.env)) &&
          s.sent == old(s.sent) + [SetupRequest(s.env)] && s.replies == Tail(old(s.replies)) &&
          s.toasts == old(s.toasts) + o.shown &&
          if o.result.Resolved? && Truthy(o.result.value) then
            setup == Loaded(o.result.value) && !isError &&
            s.store.local == old(s.store.local)[CACHE_KEY := CacheEntry(o.result.value, now)]
          else
            setup == Placeholder && isError && s.store.local == old(s.store.local)
    {
      var cached := s.store.GetLocalStorage(CACHE_KEY);
      match Verdict(cached, now)
      case Usable(d) =>
        setup := Loaded(d);
        isLoading := false;
        return false;
      case Corrupt =>
        isError := true;
        isLoading := false;
        return true;
      case _ =>
      LiteralMethods();
      var res := s.SendPublic("GET", SETUP_ENDPOINT, None, true, false);
      if res.Resolved? && Truthy(res.value) {
        setup := Loaded(res.value);
        s.store.SetLocalStorage(CACHE_KEY, CacheEntry(res.value, now));
      } else {
        isError := true;
      }
      isLoading := false;
      return false;
    }
  }

  /** A setup cached at `t` is served, without a request, while less than five minutes have passed. */
  lemma CachedSetupServed(data: Json, t: int, now: int)
    requires !data.JNull?
    ensures now - t < CACHE_TTL ==> Verdict(Some(CacheEntry(data, t)), now) == Usable(data)
    ensures now - t >= CACHE_TTL ==> Verdict(Some(CacheEntry(data, t)), now) == Stale
  {
    var f := [("timestamp", JNum(t)), ("data", data)];
    assert JsonDoc.Get(f, "timestamp") == Some(JNum(t)) by {
      assert f[..1] == [("timestamp", JNum(t))];
    }
  }

  /** A cache without a timestamp, or with a non-numeric one, is stale, whatever its data. */
  lemma UntimedCacheIsStale(fields: seq<(string, Json)>, now: int)
    requires forall i | 0 <= i < |fields| :: fields[i].0 != "timestamp"
    ensures Verdict(Some(Plain(JObj(fields))), now) == Stale
  {
  }

  /** A fresh cache with a `null` or missing `data` is an error, not a fetch. */
  lemma FreshNullDataIsCorrupt(t: int, now: int)
    requires now - t < CACHE_TTL
    ensures Verdict(Some(Plain(JObj([("timestamp", JNum(t)), ("data", JNull)]))), now) == Corrupt
    ensures Verdict(Some(Plain(JObj([("timestamp", JNum(t))]))), now) == Corrupt
  {
    var f := [("timestamp", JNum(t)), ("data", JNull)];
    assert JsonDoc.Get(f, "timestamp") == Some(JNum(t)) by {
      assert f[..1] == [("timestamp", JNum(t))];
    }
  }
}
