/**
 * The persistent wishlist (src/lib/wishlist.ts): a list of `{slug, added_at}`
 * kept in the `wishlist` cookie as percent-encoded JSON text, used as a set
 * keyed by slug.
 */
module Wishlist {
  import opened Wrappers
  import opened JsonDoc
  import opened ClientStore

  datatype WishlistItem = WishlistItem(slug: string, addedAt: string)

  // ---------------------------------------------------------------------
  // The stored form

  function ItemJson(it: WishlistItem): Json {
    JObj([("slug", JStr(it.slug)), ("added_at", JStr(it.addedAt))])
  }

  /** An array element read back as a wishlist item, when it has that shape. */
  function ItemOf(v: Json): Option<WishlistItem> {
    if !v.JObj? then None
    else
      match (Get(v.fields, "slug"), Get(v.fields, "added_at"))
      case (Some(JStr(slug)), Some(JStr(at))) => Some(WishlistItem(slug, at))
      case _ => None
  }

  function EncodeItems(w: seq<WishlistItem>): (vs: seq<Json>)
    ensures |vs| == |w|
  {
    if |w| == 0 then [] else [ItemJson(w[0])] + EncodeItems(w[1..])
  }

  /** The elements of a parsed array that have the shape of a wishlist item, in order. */
  function ItemsOf(vs: seq<Json>): (w: seq<WishlistItem>)
    ensures |w| <= |vs|
  {
    if |vs| == 0 then []
    else match ItemOf(vs[0])
      case Some(it) => [it] + ItemsOf(vs[1..])
      case None => ItemsOf(vs[1..])
  }

  function WishlistText(w: seq<WishlistItem>): Text {
    Encoded(JArr(EncodeItems(w)))
  }

  function WishlistCookie(w: seq<WishlistItem>, now: int): Cookie {
    Cookie(WishlistText(w), ExpiryAt(now, WISHLIST_ALIVE_TIME))
  }

  /** How `getWishlist` reads the cookie value: anything missing, empty, corrupt or not an array is `[]`. */
  function ReadWishlist(raw: Option<Text>): (w: seq<WishlistItem>)
    ensures raw.None? || !TextTruthy(raw.value) || Decode(raw.value).None? ==> w == []
    ensures raw.Some? && Decode(raw.value).Some? && !Decode(raw.value).value.JArr? ==> w == []
  {
    if raw.None? || !TextTruthy(raw.value) then []
    else match Decode(raw.value)
      case None => []
      case Some(doc) => if doc.JArr? then ItemsOf(doc.items) else []
  }

  /** `getWishlist()`: nothing on the server side, else the stored wishlist. */
  function GetWishlist(s: Store): seq<WishlistItem>
    reads s
  {
    if !s.browser then [] else ReadWishlist(s.GetCookie(WISHLIST_COOKIE_NAME))
  }

  lemma ItemOfItemJson(it: WishlistItem)
    ensures ItemOf(ItemJson(it)) == Some(it)
  {
    var f := ItemJson(it).fields;
    assert Get(f, "added_at") == Some(JStr(it.addedAt));
    assert Get(f, "slug") == Some(JStr(it.slug)) by {
      assert f[1].0 != "slug";
      assert f[..1] == [("slug", JStr(it.slug))];
    }
  }

  lemma {:induction false} ItemsOfEncodeItems(w: seq<WishlistItem>)
    ensures ItemsOf(EncodeItems(w)) == w
    decreases |w|
  {
    if |w| > 0 {
      ItemOfItemJson(w[0]);
      ItemsOfEncodeItems(w[1..]);
      assert EncodeItems(w)[1..] == EncodeItems(w[1..]);
    }
  }

  /** Reading back what was written gives the same wishlist. */
  lemma ReadWishlistText(w: seq<WishlistItem>)
    ensures ReadWishlist(Some(WishlistText(w))) == w
  {
    ItemsOfEncodeItems(w);
  }

  // ---------------------------------------------------------------------
  // The wishlist as a list

  function Slugs(w: seq<WishlistItem>): (r: seq<string>)
    ensures |r| == |w| && forall k | 0 <= k < |w| :: r[k] == w[k].slug
  {
    if |w| == 0 then [] else [w[0].slug] + Slugs(w[1..])
  }

  predicate UniqueSlugs(w: seq<WishlistItem>) {
    forall i, j | 0 <= i < j < |w| :: w[i].slug != w[j].slug
  }

  /** The wishlist after `addToWishlist(item)`. */
  function WithAdded(w: seq<WishlistItem>, item: WishlistItem): seq<WishlistItem> {
    if item.slug == "" || item.slug in Slugs(w) then w else w + [item]
  }

  /** `w.filter(item => item.slug !== slug)`. */
  function Without(w: seq<WishlistItem>, slug: string): (r: seq<WishlistItem>)
    ensures |r| <= |w|
    ensures slug !in Slugs(r)
  {
    if |w| == 0 then []
    else if w[0].slug == slug then Without(w[1..], slug)
    else [w[0]] + Without(w[1..], slug)
  }

  // ---------------------------------------------------------------------
  // The operations

  method SetWishlist(s: Store, w: seq<WishlistItem>)
    modifies s
    ensures s.cookies == if s.browser then old(s.cookies)[WISHLIST_COOKIE_NAME := WishlistCookie(w, s.now)] else old(s.cookies)
    ensures s.browser == old(s.browser) && s.now == old(s.now) && s.local == old(s.local)
    ensures s.browser ==> GetWishlist(s) == w
  {
    if !s.browser {
      return;
    }
    s.SetCookie(WISHLIST_COOKIE_NAME, WishlistText(w), WISHLIST_ALIVE_TIME);
    ReadWishlistText(w);
  }

  method AddToWishlist(s: Store, item: WishlistItem)
    modifies s
    ensures s.cookies ==
      if s.browser && item.slug != "" && item.slug !in Slugs(old(GetWishlist(s)))
      then old(s.cookies)[WISHLIST_COOKIE_NAME := WishlistCookie(old(GetWishlist(s)) + [item], s.now)]
      else old(s.cookies)
    ensures s.browser == old(s.browser) && s.now == old(s.now) && s.local == old(s.local)
    ensures s.browser ==> GetWishlist(s) == WithAdded(old(GetWishlist(s)), item)
  {
    if item.slug == "" {
      return;
    }
    var w := GetWishlist(s);
    if item.slug !in Slugs(w) {
      w := w + [item];
      SetWishlist(s, w);
    }
  }

  method RemoveFromWishlist(s: Store, slug: string)
    modifies s
    ensures s.cookies ==
      if s.browser then old(s.cookies)[WISHLIST_COOKIE_NAME := WishlistCookie(Without(old(GetWishlist(s)), slug), s.now)]
      else old(s.cookies)
    ensures s.browser == old(s.browser) && s.now == old(s.now) && s.local == old(s.local)
    ensures GetWishlist(s) == Without(old(GetWishlist(s)), slug)
  {
    var w := GetWishlist(s);
    var updated := Without(w, slug);
    SetWishlist(s, updated);
  }

  method ClearWishlist(s: Store)
    modifies s
    ensures s.cookies == if s.browser then old(s.cookies) - {WISHLIST_COOKIE_NAME} else old(s.cookies)
    ensures s.browser == old(s.browser) && s.now == old(s.now) && s.local == old(s.local)
    ensures GetWishlist(s) == []
  {
    if !s.browser {
      return;
    }
    s.RemoveCookie(WISHLIST_COOKIE_NAME);
  }

  // ---------------------------------------------------------------------
  // Properties

  /** Adding twice is adding once. */
  lemma WithAddedIdempotent(w: seq<WishlistItem>, item: WishlistItem)
    ensures WithAdded(WithAdded(w, item), item) == WithAdded(w, item)
  {
    if item.slug != "" && item.slug !in Slugs(w) {
      var r := w + [item];
      assert Slugs(r)[|w|] == item.slug;
    }
  }

  /** After adding an item with a slug, that slug is present; an empty slug changes nothing. */
  lemma WithAddedContains(w: seq<WishlistItem>, item: WishlistItem)
    ensures item.slug != "" ==> item.slug in Slugs(WithAdded(w, item))
    ensures item.slug == "" ==> WithAdded(w, item) == w
  {
    if item.slug != "" && item.slug !in Slugs(w) {
      assert Slugs(w + [item])[|w|] == item.slug;
    }
  }

  /** Adding keeps slugs unique. */
  lemma UniqueWithAdded(w: seq<WishlistItem>, item: WishlistItem)
    requires UniqueSlugs(w)
    ensures UniqueSlugs(WithAdded(w, item))
  {
    if item.slug != "" && item.slug !in Slugs(w) {
      var r := w + [item];
      forall i, j | 0 <= i < j < |r| ensures r[i].slug != r[j].slug {
        if j == |w| {
          assert Slugs(w)[i] == r[i].slug;
        }
      }
    }
  }

  /** Removing a slug that is absent leaves the list as it was. */
  lemma {:induction false} WithoutAbsent(w: seq<WishlistItem>, slug: string)
    requires slug !in Slugs(w)
    ensures Without(w, slug) == w
    decreases |w|
  {
    if |w| > 0 {
      assert w[0].slug == Slugs(w)[0];
      assert Slugs(w[1..]) == Slugs(w)[1..];
      WithoutAbsent(w[1..], slug);
    }
  }

  /** Removing keeps every item with another slug, as many times as it occurred. */
  lemma {:induction false} WithoutKeepsOthers(w: seq<WishlistItem>, slug: string, x: WishlistItem)
    requires x.slug != slug
    ensures multiset(Without(w, slug))[x] == multiset(w)[x]
    decreases |w|
  {
    if |w| > 0 {
      var rest := Without(w[1..], slug);
      WithoutKeepsOthers(w[1..], slug, x);
      ConsCount(w, x);
      if w[0].slug != slug {
        assert Without(w, slug) == [w[0]] + rest;
        ConsCount([w[0]] + rest, x);
        assert ([w[0]] + rest)[1..] == rest;
      } else {
        assert Without(w, slug) == rest;
        assert w[0] != x;
      }
    }
  }

  /** How often `x` occurs in a non-empty list: in its head, then in its tail. */
  lemma ConsCount(w: seq<WishlistItem>, x: WishlistItem)
    requires |w| > 0
    ensures multiset(w)[x] == (if w[0] == x then 1 else 0) + multiset(w[1..])[x]
  {
    assert w == [w[0]] + w[1..];
    assert multiset(w) == multiset([w[0]]) + multiset(w[1..]);
  }

  /** Removing distributes over concatenation, so the kept items stay in their order. */
  lemma {:induction false} WithoutConcat(a: seq<WishlistItem>, b: seq<WishlistItem>, slug: string)
    ensures Without(a + b, slug) == Without(a, slug) + Without(b, slug)
    decreases |a|
  {
    if |a| > 0 {
      assert (a + b)[0] == a[0];
      assert (a + b)[1..] == a[1..] + b;
      WithoutConcat(a[1..], b, slug);
      var x, y := Without(a[1..], slug), Without(b, slug);
      if a[0].slug == slug {
        assert Without(a + b, slug) == x + y;
        assert Without(a, slug) == x;
      } else {
        assert Without(a + b, slug) == [a[0]] + (x + y);
        assert Without(a, slug) == [a[0]] + x;
        assert [a[0]] + (x + y) == [a[0]] + x + y;
      }
    } else {
      assert a + b == b;
    }
  }

  /** Removing twice is removing once. */
  lemma WithoutIdempotent(w: seq<WishlistItem>, slug: string)
    ensures Without(Without(w, slug), slug) == Without(w, slug)
  {
    WithoutAbsent(Without(w, slug), slug);
  }

  /** Removing a slug just added with a fresh slug gives back the list. */
  lemma WithoutWithAdded(w: seq<WishlistItem>, item: WishlistItem)
    requires item.slug != "" && item.slug !in Slugs(w)
    ensures Without(WithAdded(w, item), item.slug) == w
  {
    WithoutConcat(w, [item], item.slug);
    WithoutAbsent(w, item.slug);
    assert Without([item], item.slug) == [];
  }
}
