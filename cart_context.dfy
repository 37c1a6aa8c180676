/**
 * The cart provider (src/context/CartContext.tsx): the rendered copy of the
 * stored cart, the drawer flag, and the mutations that run the stored-cart
 * operation, re-read the stored cart and post exactly what was re-read.
 */
module CartContext {
  import opened Wrappers
  import opened ClientStore
  import Cart

  class CartProvider {
    const store: Store
    /** Whether an `onCartChange` listener was given. */
    const hasListener: bool
    /** The `cart` state. */
    var cart: seq<Cart.CartItem>
    var isCartOpen: bool
    /** Every cart handed to `onCartChange`, in order. */
    var notified: seq<seq<Cart.CartItem>>
    /** Every cart handed to `postCart`, in order. */
    var posted: seq<seq<Cart.CartItem>>

    /** The provider after mounting: the effect has run `refreshCart` once. */
    constructor (store: Store, hasListener: bool)
      ensures this.store == store && this.hasListener == hasListener
      ensures cart == Cart.GetCart(store) && !isCartOpen && posted == []
      ensures notified == if hasListener then [cart] else []
    {
      this.store := store;
      this.hasListener := hasListener;
      cart := Cart.GetCart(store);
      isCartOpen := false;
      notified := if hasListener then [Cart.GetCart(store)] else [];
      posted := [];
    }

    /** `totalCount`: the sum of the amounts (`|| 0` only turns a zero sum into zero). */
    function TotalCount(): int
      reads this
    {
      Cart.TotalCount(cart)
    }

    /** `refreshCart()`: the state becomes the stored cart, which is also returned and announced. */
    method RefreshCart() returns (c: seq<Cart.CartItem>)
      modifies this
      ensures c == Cart.GetCart(store) && cart == c
      ensures notified == old(notified) + (if hasListener then [c] else [])
      ensures isCartOpen == old(isCartOpen) && posted == old(posted)
    {
      c := Cart.GetCart(store);
      cart := c;
      if hasListener {
        notified := notified + [c];
      }
    }

    /** `addToCart(sku, count = 1, price = 0, open = false)`. */
    method AddToCart(sku: string, count: Option<int>, price: Option<int>, open: Option<bool>)
      modifies this, store
      ensures store.browser == old(store.browser) && store.now == old(store.now) && store.local == old(store.local)
      ensures cart == Cart.GetCart(store) && posted == old(posted) + [cart]
      ensures notified == old(notified) + (if hasListener then [cart] else [])
      ensures store.browser ==> cart == Cart.Added(old(Cart.GetCart(store)), sku, count.GetOr(1), price.GetOr(0))
      ensures store.browser ==>
        TotalCount() == old(Cart.GetCartTotalCount(store)) + (if count.GetOr(1) > 0 then count.GetOr(1) else 0)
      ensures isCartOpen == (old(isCartOpen) || open.GetOr(false))
    {
      Cart.AddToCart(store, sku, count.GetOr(1), price.GetOr(0));
      Cart.TotalCountAdded(old(Cart.GetCart(store)), sku, count.GetOr(1), price.GetOr(0));
      var c := RefreshCart();
      posted := posted + [c];
      if open.GetOr(false) {
        OpenCart();
      }
    }

    /** `editCartItem(sku, amount, price)`. */
    method EditCartItem(sku: string, amount: int, price: int)
      modifies this, store
      ensures store.browser == old(store.browser) && store.now == old(store.now) && store.local == old(store.local)
      ensures cart == Cart.Edited(old(Cart.GetCart(store)), sku, amount, price)
      ensures cart == Cart.GetCart(store) && posted == old(posted) + [cart]
      ensures notified == old(notified) + (if hasListener then [cart] else [])
      ensures isCartOpen == old(isCartOpen)
    {
      Cart.EditCartItem(store, sku, amount, price);
      var c := RefreshCart();
      posted := posted + [c];
    }

    /** `clearCart()`: the state, the announcement and the post are all the empty cart. */
    method ClearCart()
      modifies this, store
      ensures store.browser == old(store.browser) && store.now == old(store.now) && store.local == old(store.local)
      ensures cart == [] && Cart.GetCart(store) == [] && posted == old(posted) + [[]]
      ensures notified == old(notified) + (if hasListener then [[]] else [])
      ensures isCartOpen == old(isCartOpen)
    {
      Cart.ClearCart(store);
      var c := RefreshCart();
      posted := posted + [c];
    }

    method OpenCart()
      modifies this
      ensures isCartOpen
      ensures cart == old(cart) && notified == old(notified) && posted == old(posted)
    {
      isCartOpen := true;
    }

    method CloseCart()
      modifies this
      ensures !isCartOpen
      ensures cart == old(cart) && notified == old(notified) && posted == old(posted)
    {
      isCartOpen := false;
    }

    method ToggleCart()
      modifies this
      ensures isCartOpen == !old(isCartOpen)
      ensures cart == old(cart) && notified == old(notified) && posted == old(posted)
    {
      isCartOpen := !isCartOpen;
    }
  }

  /** Toggling twice restores the drawer; opening or closing twice is the same as once. */
  method DrawerLaws(p: CartProvider) returns (afterToggles: bool, afterOpens: bool, afterCloses: bool)
    modifies p
    ensures afterToggles == old(p.isCartOpen) && afterOpens && !afterCloses
  {
    p.ToggleCart();
    p.ToggleCart();
    afterToggles := p.isCartOpen;
    p.OpenCart();
    p.OpenCart();
    afterOpens := p.isCartOpen;
    p.CloseCart();
    p.CloseCart();
    afterCloses := p.isCartOpen;
  }
}
