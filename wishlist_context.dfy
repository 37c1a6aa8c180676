/**
 * The wishlist provider (src/context/WishlistContext.tsx): the rendered copy
 * of the stored wishlist and the mutations that run the stored-wishlist
 * operation, re-read the stored wishlist and post the slugs of what was
 * re-read.
 */
module WishlistContext {
  import opened ClientStore
  import Wishlist

  class WishlistProvider {
    const store: Store
    /** Whether an `onWishlistChange` listener was given. */
    const hasListener: bool
    /** The `wishlist` state. */
    var wishlist: seq<Wishlist.WishlistItem>
    /** Every wishlist handed to `onWishlistChange`, in order. */
    var notified: seq<seq<Wishlist.WishlistItem>>
    /** Every slug list handed to `postWishlist`, in order. */
    var posted: seq<seq<string>>

    /** The provider after mounting: the effect has run `refreshWishlist` once. */
    constructor (store: Store, hasListener: bool)
      ensures this.store == store && this.hasListener == hasListener
      ensures wishlist == Wishlist.GetWishlist(store) && posted == []
      ensures notified == if hasListener then [wishlist] else []
    {
      this.store := store;
      this.hasListener := hasListener;
      wishlist := Wishlist.GetWishlist(store);
      notified := if hasListener then [Wishlist.GetWishlist(store)] else [];
      posted := [];
    }

    /** `isInWishlist(slug)`: some entry of the state has that slug. */
    predicate IsInWishlist(slug: string)
      reads this
      ensures IsInWishlist(slug) <==> exists i | 0 <= i < |wishlist| :: wishlist[i].slug == slug
    {
      slug in Wishlist.Slugs(wishlist)
    }

    /** `refreshWishlist()`: the state becomes the stored wishlist, which is also returned and announced. */
    method RefreshWishlist() returns (w: seq<Wishlist.WishlistItem>)
      modifies this
      ensures w == Wishlist.GetWishlist(store) && wishlist == w
      ensures notified == old(notified) + (if hasListener then [w] else [])
      ensures posted == old(posted)
    {
      w := Wishlist.GetWishlist(store);
      wishlist := w;
      if hasListener {
        notified := notified + [w];
      }
    }

    /** The re-read, then the post of its slugs. */
    method RefreshAndPost()
      modifies this
      ensures wishlist == Wishlist.GetWishlist(store)
      ensures notified == old(notified) + (if hasListener then [wishlist] else [])
      ensures posted == old(posted) + [Wishlist.Slugs(wishlist)]
    {
      var w := RefreshWishlist();
      posted := posted + [Wishlist.Slugs(w)];
    }

    /** `addToWishlist(item)`. */
    method AddToWishlist(item: Wishlist.WishlistItem)
      modifies this, store
      ensures store.browser == old(store.browser) && store.now == old(store.now) && store.local == old(store.local)
      ensures store.browser ==> wishlist == Wishlist.WithAdded(old(Wishlist.GetWishlist(store)), item)
      ensures store.browser && item.slug != "" ==> IsInWishlist(item.slug)
      ensures wishlist == Wishlist.GetWishlist(store) && posted == old(posted) + [Wishlist.Slugs(wishlist)]
      ensures notified == old(notified) + (if hasListener then [wishlist] else [])
    {
      Wishlist.AddToWishlist(store, item);
      Wishlist.WithAddedContains(old(Wishlist.GetWishlist(store)), item);
      RefreshAndPost();
    }

    /** `addProductToWishlist(slug)`, stamped with `now`, the ISO text of the current time. */
    method AddProductToWishlist(slug: string, now: string)
      modifies this, store
      ensures store.browser == old(store.browser) && store.now == old(store.now) && store.local == old(store.local)
      ensures store.browser ==>
        wishlist == Wishlist.WithAdded(old(Wishlist.GetWishlist(store)), Wishlist.WishlistItem(slug, now))
      ensures wishlist == Wishlist.GetWishlist(store) && posted == old(posted) + [Wishlist.Slugs(wishlist)]
      ensures notified == old(notified) + (if hasListener then [wishlist] else [])
    {
      AddToWishlist(Wishlist.WishlistItem(slug, now));
    }

    /** `removeFromWishlist(slug)`. */
    method RemoveFromWishlist(slug: string)
      modifies this, store
      ensures store.browser == old(store.browser) && store.now == old(store.now) && store.local == old(store.local)
      ensures wishlist == Wishlist.Without(old(Wishlist.GetWishlist(store)), slug)
      ensures !IsInWishlist(slug)
      ensures wishlist == Wishlist.GetWishlist(store) && posted == old(posted) + [Wishlist.Slugs(wishlist)]
      ensures notified == old(notified) + (if hasListener then [wishlist] else [])
    {
      Wishlist.RemoveFromWishlist(store, slug);
      RefreshAndPost();
    }

    /** `clearWishlist()`: the state is empty and the post is the empty slug list. */
    method ClearWishlist()
      modifies this, store
      ensures store.browser == old(store.browser) && store.now == old(store.now) && store.local == old(store.local)
      ensures wishlist == [] && Wishlist.GetWishlist(store) == [] && posted == old(posted) + [[]]
      ensures notified == old(notified) + (if hasListener then [[]] else [])
    {
      Wishlist.ClearWishlist(store);
      RefreshAndPost();
    }

    /** `setWishlist(w)`: the stored and rendered wishlist become `w`, and its slugs are posted. */
    method SetWishlist(w: seq<Wishlist.WishlistItem>)
      modifies this, store
      ensures store.browser == old(store.browser) && store.now == old(store.now) && store.local == old(store.local)
      ensures store.browser ==> wishlist == w
      ensures wishlist == Wishlist.GetWishlist(store) && posted == old(posted) + [Wishlist.Slugs(wishlist)]
      ensures notified == old(notified) + (if hasListener then [wishlist] else [])
    {
      Wishlist.SetWishlist(store, w);
      RefreshAndPost();
    }
  }
}
