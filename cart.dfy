/**
 * The persistent cart (src/lib/cart.ts): a list of `{sku, amount, price}`
 * kept in the `hex_cart` cookie as percent-encoded JSON text.
 */
module Cart {
  import opened Wrappers
  import opened JsonDoc
  import opened ClientStore

  datatype CartItem = CartItem(sku: string, amount: int, price: int)

  // ---------------------------------------------------------------------
  // The stored form

  function ItemJson(it: CartItem): Json {
    JObj([("sku", JStr(it.sku)), ("amount", JNum(it.amount)), ("price", JNum(it.price))])
  }

  /** An array element read back as a cart item, when it has that shape. */
  function ItemOf(v: Json): Option<CartItem> {
    if !v.JObj? then None
    else
      match (Get(v.fields, "sku"), Get(v.fields, "amount"), Get(v.fields, "price"))
      case (Some(JStr(sku)), Some(JNum(amount)), Some(JNum(price))) => Some(CartItem(sku, amount, price))
      case _ => None
  }

  function EncodeItems(cart: seq<CartItem>): (vs: seq<Json>)
    ensures |vs| == |cart|
  {
    if |cart| == 0 then [] else [ItemJson(cart[0])] + EncodeItems(cart[1..])
  }

  /** The elements of a parsed array that have the shape of a cart item, in order. */
  function ItemsOf(vs: seq<Json>): (cart: seq<CartItem>)
    ensures |cart| <= |vs|
  {
    if |vs| == 0 then []
    else match ItemOf(vs[0])
      case Some(it) => [it] + ItemsOf(vs[1..])
      case None => ItemsOf(vs[1..])
  }

  /** The text `setCart` stores for `cart`. */
  function CartText(cart: seq<CartItem>): Text {
    Encoded(JArr(EncodeItems(cart)))
  }

  /** The cookie `setCart` writes at time `now`. */
  function CartCookie(cart: seq<CartItem>, now: int): Cookie {
    Cookie(CartText(cart), ExpiryAt(now, CART_ALIVE_TIME))
  }

  /** How `getCart` reads the cookie value: anything missing, empty, corrupt or not an array is `[]`. */
  function ReadCart(raw: Option<Text>): (cart: seq<CartItem>)
    ensures raw.None? || !TextTruthy(raw.value) || Decode(raw.value).None? ==> cart == []
    ensures raw.Some? && Decode(raw.value).Some? && !Decode(raw.value).value.JArr? ==> cart == []
  {
    if raw.None? || !TextTruthy(raw.value) then []
    else match Decode(raw.value)
      case None => []
      case Some(doc) => if doc.JArr? then ItemsOf(doc.items) else []
  }

  /** `getCart()`: nothing on the server side, else the stored cart. */
  function GetCart(s: Store): seq<CartItem>
    reads s
  {
    if !s.browser then [] else ReadCart(s.GetCookie(CART_COOKIE_NAME))
  }

  lemma {:induction false} ItemsOfEncodeItems(cart: seq<CartItem>)
    ensures ItemsOf(EncodeItems(cart)) == cart
    decreases |cart|
  {
    if |cart| > 0 {
      ItemOfItemJson(cart[0]);
      ItemsOfEncodeItems(cart[1..]);
      assert EncodeItems(cart)[1..] == EncodeItems(cart[1..]);
    }
  }

  lemma ItemOfItemJson(it: CartItem)
    ensures ItemOf(ItemJson(it)) == Some(it)
  {
    var f := ItemJson(it).fields;
    assert Get(f, "price") == Some(JNum(it.price));
    assert Get(f, "amount") == Some(JNum(it.amount)) by {
      assert f[..2] == [("sku", JStr(it.sku)), ("amount", JNum(it.amount))];
    }
    assert Get(f, "sku") == Some(JStr(it.sku)) by {
      assert f[2].0 != "sku" && f[1].0 != "sku";
      assert Get(f, "sku") == Get(f[..2], "sku");
      assert f[..2][..1] == [("sku", JStr(it.sku))];
      assert Get(f[..2], "sku") == Get(f[..2][..1], "sku");
    }
  }

  /** Reading back what was written gives the same cart. */
  lemma ReadCartText(cart: seq<CartItem>)
    ensures ReadCart(Some(CartText(cart))) == cart
  {
    ItemsOfEncodeItems(cart);
  }

  // ---------------------------------------------------------------------
  // The cart as a list

  /** `cart.findIndex(item => item.sku === sku)`. */
  function IndexOf(cart: seq<CartItem>, sku: string): (r: int)
    ensures -1 <= r < |cart|
    ensures r >= 0 ==> cart[r].sku == sku && forall j | 0 <= j < r :: cart[j].sku != sku
    ensures r == -1 <==> forall j | 0 <= j < |cart| :: cart[j].sku != sku
  {
    if |cart| == 0 then -1
    else if cart[0].sku == sku then 0
    else
      var k := IndexOf(cart[1..], sku);
      if k < 0 then -1 else k + 1
  }

  /** `cart.find(item => item.sku === sku)`. */
  function Find(cart: seq<CartItem>, sku: string): Option<CartItem> {
    var i := IndexOf(cart, sku);
    if i < 0 then None else Some(cart[i])
  }

  /** The skus of the cart, in order. */
  function Skus(cart: seq<CartItem>): (r: seq<string>)
    ensures |r| == |cart| && forall k | 0 <= k < |cart| :: r[k] == cart[k].sku
  {
    if |cart| == 0 then [] else [cart[0].sku] + Skus(cart[1..])
  }

  predicate UniqueSkus(cart: seq<CartItem>) {
    forall i, j | 0 <= i < j < |cart| :: cart[i].sku != cart[j].sku
  }

  /** The sum of the amounts. */
  function TotalCount(cart: seq<CartItem>): int {
    if |cart| == 0 then 0 else cart[0].amount + TotalCount(cart[1..])
  }

  /** The amount of the first entry with `sku`, or 0. */
  function ItemCount(cart: seq<CartItem>, sku: string): (n: int)
    ensures (forall j | 0 <= j < |cart| :: cart[j].sku != sku) ==> n == 0
  {
    match Find(cart, sku)
    case Some(it) => it.amount
    case None => 0
  }

  /** The cart after `addToCart(sku, amount, price)`. */
  function Added(cart: seq<CartItem>, sku: string, amount: int, price: int): seq<CartItem> {
    if amount <= 0 then cart
    else
      var i := IndexOf(cart, sku);
      if i >= 0 then cart[i := CartItem(cart[i].sku, cart[i].amount + amount, price)]
      else cart + [CartItem(sku, amount, price)]
  }

  /** The cart after `editCartItem(sku, amount, price)`. */
  function Edited(cart: seq<CartItem>, sku: string, amount: int, price: int): seq<CartItem> {
    var i := IndexOf(cart, sku);
    if i < 0 then cart
    else if amount <= 0 then cart[..i] + cart[i + 1..]
    else cart[i := CartItem(cart[i].sku, amount, price)]
  }

  // ---------------------------------------------------------------------
  // The operations

  method SetCart(s: Store, cart: seq<CartItem>)
    modifies s
    ensures s.cookies == if s.browser then old(s.cookies)[CART_COOKIE_NAME := CartCookie(cart, s.now)] else old(s.cookies)
    ensures s.browser == old(s.browser) && s.now == old(s.now) && s.local == old(s.local)
    ensures s.browser ==> GetCart(s) == cart
  {
    if !s.browser {
      return;
    }
    s.SetCookie(CART_COOKIE_NAME, CartText(cart), CART_ALIVE_TIME);
    ReadCartText(cart);
  }

  /** `getCartTotalCount()`. */
  function GetCartTotalCount(s: Store): int
    reads s
  {
    TotalCount(GetCart(s))
  }

  /** `getCartItemCount(sku)`. */
  function GetCartItemCount(s: Store, sku: string): int
    reads s
  {
    ItemCount(GetCart(s), sku)
  }

  method AddToCart(s: Store, sku: string, amount: int, price: int)
    modifies s
    ensures s.cookies ==
      if s.browser && amount > 0 then old(s.cookies)[CART_COOKIE_NAME := CartCookie(Added(old(GetCart(s)), sku, amount, price), s.now)]
      else old(s.cookies)
    ensures s.browser == old(s.browser) && s.now == old(s.now) && s.local == old(s.local)
    ensures s.browser ==> GetCart(s) == Added(old(GetCart(s)), sku, amount, price)
  {
    if amount <= 0 {
      return;
    }
    var cart := GetCart(s);
    ghost var before := cart;
    var i := IndexOf(cart, sku);
    if i >= 0 {
      cart := cart[i := CartItem(cart[i].sku, cart[i].amount + amount, price)];
    } else {
      cart := cart + [CartItem(sku, amount, price)];
    }
    assert cart == Added(before, sku, amount, price);
    SetCart(s, cart);
  }

  method EditCartItem(s: Store, sku: string, amount: int, price: int)
    modifies s
    ensures s.cookies ==
      if s.browser && IndexOf(old(GetCart(s)), sku) >= 0
      then old(s.cookies)[CART_COOKIE_NAME := CartCookie(Edited(old(GetCart(s)), sku, amount, price), s.now)]
      else old(s.cookies)
    ensures s.browser == old(s.browser) && s.now == old(s.now) && s.local == old(s.local)
    ensures GetCart(s) == Edited(old(GetCart(s)), sku, amount, price)
  {
    var cart := GetCart(s);
    var i := IndexOf(cart, sku);
    if i == -1 {
      return;
    }
    if amount <= 0 {
      cart := cart[..i] + cart[i + 1..];
      SetCart(s, cart);
      return;
    }
    cart := cart[i := CartItem(cart[i].sku, amount, price)];
    SetCart(s, cart);
  }

  method ClearCart(s: Store)
    modifies s
    ensures s.cookies == if s.browser then old(s.cookies) - {CART_COOKIE_NAME} else old(s.cookies)
    ensures s.browser == old(s.browser) && s.now == old(s.now) && s.local == old(s.local)
    ensures GetCart(s) == []
  {
    if !s.browser {
      return;
    }
    s.RemoveCookie(CART_COOKIE_NAME);
  }

  // ---------------------------------------------------------------------
  // Properties of add

  lemma {:induction false} SkusUpdate(cart: seq<CartItem>, i: nat, it: CartItem)
    requires i < |cart| && it.sku == cart[i].sku
    ensures Skus(cart[i := it]) == Skus(cart)
  {
  }

  lemma {:induction false} IndexOfUpdate(cart: seq<CartItem>, i: nat, it: CartItem, sku: string)
    requires i < |cart| && it.sku == cart[i].sku
    ensures IndexOf(cart[i := it], sku) == IndexOf(cart, sku)
  {
    var c := cart[i := it];
    var a, b := IndexOf(c, sku), IndexOf(cart, sku);
    assert forall j | 0 <= j < |cart| :: c[j].sku == cart[j].sku;
    if a < 0 || b < 0 {
    } else if a < b {
    } else if b < a {
    }
  }

  lemma {:induction false} IndexOfAppend(cart: seq<CartItem>, it: CartItem, sku: string)
    ensures IndexOf(cart + [it], sku) ==
      var i := IndexOf(cart, sku); if i >= 0 then i else if it.sku == sku then |cart| else -1
  {
    var c := cart + [it];
    var a, b := IndexOf(c, sku), IndexOf(cart, sku);
    assert forall j | 0 <= j < |cart| :: c[j] == cart[j];
    if b >= 0 {
      assert c[b] == cart[b];
    } else {
      assert c[|cart|] == it;
    }
  }

  /** Adding keeps the order of skus and appends only a sku that was absent. */
  lemma SkusAdded(cart: seq<CartItem>, sku: string, amount: int, price: int)
    requires amount > 0
    ensures Skus(Added(cart, sku, amount, price)) == if sku in Skus(cart) then Skus(cart) else Skus(cart) + [sku]
  {
    var i := IndexOf(cart, sku);
    if i >= 0 {
      assert sku in Skus(cart) by { assert Skus(cart)[i] == sku; }
      SkusUpdate(cart, i, CartItem(cart[i].sku, cart[i].amount + amount, price));
    } else {
      assert sku !in Skus(cart);
      var r := cart + [CartItem(sku, amount, price)];
      assert Skus(r) == Skus(cart) + [sku];
    }
  }

  /** After an add, the entry for `sku` holds the summed amount and the new price. */
  lemma FindAdded(cart: seq<CartItem>, sku: string, amount: int, price: int)
    requires amount > 0
    ensures Find(Added(cart, sku, amount, price), sku) == Some(CartItem(sku, ItemCount(cart, sku) + amount, price))
  {
    var i := IndexOf(cart, sku);
    var r := Added(cart, sku, amount, price);
    if i >= 0 {
      IndexOfUpdate(cart, i, CartItem(cart[i].sku, cart[i].amount + amount, price), sku);
    } else {
      IndexOfAppend(cart, CartItem(sku, amount, price), sku);
    }
  }

  /** An add leaves every other sku's entry as it was. */
  lemma FindAddedOther(cart: seq<CartItem>, sku: string, amount: int, price: int, other: string)
    requires other != sku
    ensures Find(Added(cart, sku, amount, price), other) == Find(cart, other)
  {
    var i := IndexOf(cart, sku);
    if amount > 0 {
      if i >= 0 {
        IndexOfUpdate(cart, i, CartItem(cart[i].sku, cart[i].amount + amount, price), other);
      } else {
        IndexOfAppend(cart, CartItem(sku, amount, price), other);
      }
    }
  }

  /** `getCartItemCount` after an add: the added sku gains the positive amount, every other sku keeps its count. */
  lemma ItemCountAdded(cart: seq<CartItem>, sku: string, amount: int, price: int, other: string)
    ensures ItemCount(Added(cart, sku, amount, price), other) ==
      ItemCount(cart, other) + (if other == sku && amount > 0 then amount else 0)
  {
    if other != sku {
      FindAddedOther(cart, sku, amount, price, other);
    } else if amount > 0 {
      FindAdded(cart, sku, amount, price);
    }
  }

  /** Adding keeps skus unique. */
  lemma UniqueAdded(cart: seq<CartItem>, sku: string, amount: int, price: int)
    requires UniqueSkus(cart)
    ensures UniqueSkus(Added(cart, sku, amount, price))
  {
    var r := Added(cart, sku, amount, price);
    if amount > 0 {
      SkusAdded(cart, sku, amount, price);
      forall i, j | 0 <= i < j < |r| ensures r[i].sku != r[j].sku {
        assert Skus(r)[i] == r[i].sku && Skus(r)[j] == r[j].sku;
        if j == |cart| {
          assert sku !in Skus(cart);
          assert Skus(cart)[i] == r[i].sku;
        }
      }
    }
  }

  lemma {:induction false} TotalCountUpdate(cart: seq<CartItem>, i: nat, it: CartItem)
    requires i < |cart|
    ensures TotalCount(cart[i := it]) == TotalCount(cart) - cart[i].amount + it.amount
    decreases |cart|
  {
    if i > 0 {
      TotalCountUpdate(cart[1..], i - 1, it);
      assert cart[i := it][1..] == cart[1..][i - 1 := it];
    }
  }

  lemma {:induction false} TotalCountAppend(cart: seq<CartItem>, it: CartItem)
    ensures TotalCount(cart + [it]) == TotalCount(cart) + it.amount
    decreases |cart|
  {
    if |cart| > 0 {
      TotalCountAppend(cart[1..], it);
      assert (cart + [it])[1..] == cart[1..] + [it];
    }
  }

  lemma {:induction false} TotalCountRemove(cart: seq<CartItem>, i: nat)
    requires i < |cart|
    ensures TotalCount(cart[..i] + cart[i + 1..]) == TotalCount(cart) - cart[i].amount
    decreases |cart|
  {
    if i == 0 {
      assert cart[..0] + cart[1..] == cart[1..];
    } else {
      TotalCountRemove(cart[1..], i - 1);
      assert (cart[..i] + cart[i + 1..])[1..] == cart[1..][..i - 1] + cart[1..][i..];
    }
  }

  /** The total count grows by exactly the amount added (nothing for a non-positive amount). */
  lemma TotalCountAdded(cart: seq<CartItem>, sku: string, amount: int, price: int)
    ensures TotalCount(Added(cart, sku, amount, price)) == TotalCount(cart) + (if amount > 0 then amount else 0)
  {
    var i := IndexOf(cart, sku);
    if amount > 0 {
      if i >= 0 {
        TotalCountUpdate(cart, i, CartItem(cart[i].sku, cart[i].amount + amount, price));
      } else {
        TotalCountAppend(cart, CartItem(sku, amount, price));
      }
    }
  }

  // ---------------------------------------------------------------------
  // Properties of edit

  /** Editing a sku the cart does not hold changes nothing. */
  lemma EditedAbsent(cart: seq<CartItem>, sku: string, amount: int, price: int)
    requires sku !in Skus(cart)
    ensures Edited(cart, sku, amount, price) == cart
  {
  }

  /** A positive edit sets the entry to exactly the given amount and price. */
  lemma FindEditedPositive(cart: seq<CartItem>, sku: string, amount: int, price: int)
    requires amount > 0 && sku in Skus(cart)
    ensures Find(Edited(cart, sku, amount, price), sku) == Some(CartItem(sku, amount, price))
    ensures Skus(Edited(cart, sku, amount, price)) == Skus(cart)
  {
    var i := IndexOf(cart, sku);
    IndexOfUpdate(cart, i, CartItem(cart[i].sku, amount, price), sku);
    SkusUpdate(cart, i, CartItem(cart[i].sku, amount, price));
  }

  /** A later edit overrides an earlier positive one: the amount is absolute, not added. */
  lemma EditedOverrides(cart: seq<CartItem>, sku: string, a1: int, p1: int, a2: int, p2: int)
    requires a1 > 0
    ensures Edited(Edited(cart, sku, a1, p1), sku, a2, p2) == Edited(cart, sku, a2, p2)
  {
    var i := IndexOf(cart, sku);
    if i >= 0 {
      var c1 := Edited(cart, sku, a1, p1);
      IndexOfUpdate(cart, i, CartItem(cart[i].sku, a1, p1), sku);
      if a2 <= 0 {
        assert c1[..i] + c1[i + 1..] == cart[..i] + cart[i + 1..];
      }
    }
  }

  /** Editing twice with the same arguments equals editing once, when skus are unique. */
  lemma EditedIdempotent(cart: seq<CartItem>, sku: string, amount: int, price: int)
    requires amount > 0 || UniqueSkus(cart)
    ensures Edited(Edited(cart, sku, amount, price), sku, amount, price) == Edited(cart, sku, amount, price)
  {
    var i := IndexOf(cart, sku);
    if i >= 0 {
      if amount > 0 {
        EditedOverrides(cart, sku, amount, price, amount, price);
      } else {
        var r := cart[..i] + cart[i + 1..];
        forall j | 0 <= j < |r| ensures r[j].sku != sku {
          if j < i { assert r[j] == cart[j]; } else { assert r[j] == cart[j + 1]; }
        }
      }
    }
  }

  /** A non-positive edit removes exactly the first entry with `sku` and keeps the rest in order. */
  lemma EditedRemoves(cart: seq<CartItem>, sku: string, amount: int, price: int)
    requires amount <= 0 && sku in Skus(cart)
    ensures var i := IndexOf(cart, sku);
      Edited(cart, sku, amount, price) == cart[..i] + cart[i + 1..]
    ensures TotalCount(Edited(cart, sku, amount, price)) == TotalCount(cart) - ItemCount(cart, sku)
    ensures UniqueSkus(cart) ==> sku !in Skus(Edited(cart, sku, amount, price))
  {
    var i := IndexOf(cart, sku);
    assert i >= 0 by {
      var k :| 0 <= k < |cart| && Skus(cart)[k] == sku;
    }
    assert Edited(cart, sku, amount, price) == cart[..i] + cart[i + 1..];
    TotalCountRemove(cart, i);
    if UniqueSkus(cart) {
      RemovedSkuAbsent(cart, i);
    }
  }

  /** With unique skus, deleting an entry leaves no entry with its sku. */
  lemma RemovedSkuAbsent(cart: seq<CartItem>, i: int)
    requires UniqueSkus(cart) && 0 <= i < |cart|
    ensures cart[i].sku !in Skus(cart[..i] + cart[i + 1..])
  {
    var r := cart[..i] + cart[i + 1..];
    forall j | 0 <= j < |r| ensures Skus(r)[j] != cart[i].sku {
      if j < i { assert r[j] == cart[j]; } else { assert r[j] == cart[j + 1]; }
    }
  }
}
