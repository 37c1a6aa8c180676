/**
 * The cart summary of the drawer and the checkout page
 * (src/components/menu/CartSummary.tsx): the quantity input and its
 * clamping, the per-line warnings and price-change notice, the totals with
 * the free-delivery rule, and the variant list behind them.
 */
module CartSummary {
  import opened Wrappers
  import opened JsNumber
  import opened Catalog
  import Cart

  // ---------------------------------------------------------------------
  // Prices of one line

  /** `variant ? (variant.discount_price ?? variant.price) : 0`: the price an amount edit is made with. */
  function EditPrice(variant: Option<VariantFull>): (p: int)
    ensures variant.Some? ==> p == EffectivePrice(variant.value.price, variant.value.discountPrice)
    ensures variant.None? ==> p == 0
  {
    match variant
    case Some(v) => EffectivePrice(v.price, v.discountPrice)
    case None => 0
  }

  /** The price a line counts with in the totals: the stored cart price when the variant is missing. */
  function LinePrice(variant: Option<VariantFull>, cartPrice: int): (p: int)
    ensures variant.Some? ==> p == EditPrice(variant)
    ensures variant.None? ==> p == cartPrice
  {
    if variant.Some? then EditPrice(variant) else cartPrice
  }

  /** The notice "the price has changed": the variant's effective price is not the stored one. */
  predicate PriceChanged(variant: VariantFull, cartPrice: int) {
    EffectivePrice(variant.price, variant.discountPrice) != cartPrice
  }

  // ---------------------------------------------------------------------
  // Warnings of one line

  /** The warning under a line, with the limit it names. */
  datatype Warning = NoWarning | NotFound | InventoryLimit(limit: int) | MaxLimit(limit: int)

  /** `if (inventory && amount > inventory)`: a zero or missing inventory sets no bound. */
  predicate OverInventory(v: VariantFull, amount: int) {
    v.inventory.Some? && v.inventory.value != 0 && amount > v.inventory.value
  }

  /** A positive numeric `max_limit` of the product that the amount exceeds. */
  predicate OverMaxLimit(v: VariantFull, amount: int) {
    v.product.Some? && v.product.value.maxLimit.Some? && v.product.value.maxLimit.value > 0 &&
    amount > v.product.value.maxLimit.value
  }

  /** The line's `error`: set for the inventory, then overwritten for the product limit. */
  function LineWarning(variant: Option<VariantFull>, amount: int): (w: Warning)
    ensures w == NotFound <==> variant.None?
    ensures w.MaxLimit? <==> variant.Some? && OverMaxLimit(variant.value, amount)
    ensures w.InventoryLimit? <==> variant.Some? && OverInventory(variant.value, amount) && !OverMaxLimit(variant.value, amount)
    ensures w.MaxLimit? ==> w.limit == variant.value.product.value.maxLimit.value && 0 < w.limit < amount
    ensures w.InventoryLimit? ==> w.limit == variant.value.inventory.value && w.limit < amount
  {
    match variant
    case None => NotFound
    case Some(v) =>
      if OverMaxLimit(v, amount) then MaxLimit(v.product.value.maxLimit.value)
      else if OverInventory(v, amount) then InventoryLimit(v.inventory.value)
      else NoWarning
  }

  /** An amount within a positive inventory and the product limit shows no warning at all. */
  lemma WithinLimitsNoWarning(v: VariantFull, amount: int)
    requires v.inventory.Some? ==> amount <= v.inventory.value
    requires v.product.Some? && v.product.value.maxLimit.Some? ==> amount <= v.product.value.maxLimit.value
    ensures LineWarning(Some(v), amount) == NoWarning
  {
  }

  // ---------------------------------------------------------------------
  // The quantity input

  /**
   * The amount the debounced step of `handleInputChange` settles on:
   * `parseInt(value, 10)`, 1 for a value that does not parse or is below 1,
   * then the inventory when it is a number and is exceeded.
   */
  function Clamped(value: string, inventory: Option<int>): int {
    var n := ParseDecimal(value);
    var atLeastOne := if n.NaN? || n.i < 1 then 1 else n.i;
    if inventory.Some? && atLeastOne > inventory.value then inventory.value else atLeastOne
  }

  /**
   * The clamp keeps a parsed amount within 1 and the inventory: an amount in
   * range is kept, a missing or too small one becomes 1, a too large one the
   * inventory (which therefore also wins over 1 when it is below 1).
   */
  lemma ClampedSpec(value: string, inventory: Option<int>)
    ensures inventory.Some? ==> Clamped(value, inventory) <= inventory.value
    ensures inventory.None? || inventory.value >= 1 ==> Clamped(value, inventory) >= 1
    ensures var n := ParseDecimal(value);
      n.Int? && n.i >= 1 && (inventory.None? || n.i <= inventory.value) ==> Clamped(value, inventory) == n.i
    ensures var n := ParseDecimal(value);
      (n.NaN? || n.i < 1) && (inventory.None? || inventory.value >= 1) ==> Clamped(value, inventory) == 1
    ensures var n := ParseDecimal(value);
      inventory.Some? && ((n.Int? && n.i > inventory.value) || inventory.value < 1) ==> Clamped(value, inventory) == inventory.value
  {
  }

  /** A typed amount already within range is kept as typed. */
  lemma ClampedKeepsInRange(amount: int, inventory: Option<int>)
    requires amount >= 1 && (inventory.None? || amount <= inventory.value)
    ensures Clamped(IntToString(amount), inventory) == amount
  {
    ParseIntOfIntToString(amount);
  }

  /**
   * With an inventory of 0, which the line does not treat as a bound, any
   * typed amount settles on 0, and the resulting edit removes the line.
   */
  lemma ZeroInventoryRemovesLine(cart: seq<Cart.CartItem>, sku: string, value: string, price: int)
    requires Cart.UniqueSkus(cart)
    ensures Clamped(value, Some(0)) == 0
    ensures sku !in Cart.Skus(Cart.Edited(cart, sku, Clamped(value, Some(0)), price))
  {
    if sku in Cart.Skus(cart) {
      Cart.EditedRemoves(cart, sku, 0, price);
    } else {
      Cart.EditedAbsent(cart, sku, 0, price);
    }
  }

  /** The `let amount` steps of the timer callback. */
  method ClampAmount(value: string, inventory: Option<int>) returns (amount: int)
    ensures amount == Clamped(value, inventory)
  {
    var n := ParseDecimal(value);
    amount := if n.Int? then n.i else 0;
    if n.NaN? || amount < 1 {
      amount := 1;
    }
    if inventory.Some? && amount > inventory.value {
      amount := inventory.value;
    }
  }

  // ---------------------------------------------------------------------
  // Totals and delivery

  /** The `reduce` over the cart: each line's price times its amount. */
  function Total(items: seq<Cart.CartItem>, variants: seq<VariantFull>): int
    decreases |items|
  {
    if |items| == 0 then 0
    else LinePrice(FindVariant(variants, items[0].sku), items[0].price) * items[0].amount + Total(items[1..], variants)
  }

  /** The total taken at the prices stored in the cart. */
  function StoredTotal(items: seq<Cart.CartItem>): int
    decreases |items|
  {
    if |items| == 0 then 0 else items[0].price * items[0].amount + StoredTotal(items[1..])
  }

  /** The total of a cart split in two is the sum of the totals of the parts. */
  lemma {:induction false} TotalAppend(a: seq<Cart.CartItem>, b: seq<Cart.CartItem>, variants: seq<VariantFull>)
    ensures Total(a + b, variants) == Total(a, variants) + Total(b, variants)
    decreases |a|
  {
    if |a| == 0 {
      assert a + b == b;
    } else {
      assert (a + b)[1..] == a[1..] + b;
      TotalAppend(a[1..], b, variants);
    }
  }

  /** When no line shows a changed price, and for missing variants, the total is the stored total. */
  lemma {:induction false} UnchangedPricesKeepTotal(items: seq<Cart.CartItem>, variants: seq<VariantFull>)
    requires forall k | 0 <= k < |items| ::
      FindVariant(variants, items[k].sku).Some? ==> !PriceChanged(FindVariant(variants, items[k].sku).value, items[k].price)
    ensures Total(items, variants) == StoredTotal(items)
    decreases |items|
  {
    if |items| > 0 {
      assert forall k | 0 <= k < |items[1..]| :: items[1..][k] == items[k + 1];
      UnchangedPricesKeepTotal(items[1..], variants);
    }
  }

  /** `setup.delivery_fee_threshold || 0`. */
  function Threshold(s: StoreSettings): int {
    s.deliveryFeeThreshold.GetOr(0)
  }

  /** `setup.delivery_fee || 0`. */
  function Fee(s: StoreSettings): int {
    s.deliveryFee.GetOr(0)
  }

  /** The delivery line: free, or the fee with what is still missing when a threshold is set. */
  datatype DeliveryLine = FreeDelivery | FeeDue(fee: int, missing: Option<int>)

  /** The delivery line of the summary, shown only when delivery fees are enabled. */
  function Delivery(s: StoreSettings, total: int): (r: Option<DeliveryLine>)
    ensures r.Some? <==> s.deliveryFeeEnabled
    ensures r == Some(FreeDelivery) <==> s.deliveryFeeEnabled && Threshold(s) > 0 && total >= Threshold(s)
    ensures r.Some? && r.value.FeeDue? ==> r.value.fee == Fee(s) && (r.value.missing.Some? <==> Threshold(s) > 0)
    ensures r.Some? && r.value.FeeDue? && r.value.missing.Some? ==>
      r.value.missing.value == Threshold(s) - total && r.value.missing.value > 0
  {
    var threshold := Threshold(s);
    if !s.deliveryFeeEnabled then None
    else if total >= threshold && threshold > 0 then Some(FreeDelivery)
    else
      var diff := if threshold - total > 0 then threshold - total else 0;
      Some(FeeDue(Fee(s), if threshold > 0 then Some(diff) else None))
  }

  /** `showDeliveryFee`: the fee is part of the grand total. */
  predicate FeeInTotal(s: StoreSettings, total: int) {
    s.deliveryFeeEnabled && (Threshold(s) == 0 || total < Threshold(s))
  }

  function GrandTotal(s: StoreSettings, total: int): (g: int)
    ensures FeeInTotal(s, total) ==> g == total + Fee(s)
    ensures !FeeInTotal(s, total) ==> g == total
  {
    if FeeInTotal(s, total) then total + Fee(s) else total
  }

  /**
   * For a threshold that is not negative, the two places agree: the grand
   * total includes the fee exactly when the delivery line shows it.
   */
  lemma DeliveryAgreesWithGrandTotal(s: StoreSettings, total: int)
    requires Threshold(s) >= 0 && s.deliveryFeeEnabled
    ensures FeeInTotal(s, total) <==> Delivery(s, total).value.FeeDue?
  {
  }

  /** Adding the missing amount shown under the fee makes delivery free. */
  lemma AddingMissingFreesDelivery(s: StoreSettings, total: int, extra: int)
    requires Delivery(s, total).Some? && Delivery(s, total).value.FeeDue? && Delivery(s, total).value.missing.Some?
    requires extra >= Delivery(s, total).value.missing.value
    ensures Delivery(s, total + extra) == Some(FreeDelivery)
    ensures !FeeInTotal(s, total + extra) && GrandTotal(s, total + extra) == total + extra
  {
  }

  // ---------------------------------------------------------------------
  // The component

  /** `item.amount.toString()` for each line; a later line with the same sku wins. */
  function AmountTexts(items: seq<Cart.CartItem>): (m: map<string, string>)
    ensures forall sku :: sku in m <==> sku in Cart.Skus(items)
    decreases |items|
  {
    if |items| == 0 then map[]
    else
      var rest := AmountTexts(items[1..]);
      FirstKeys(rest, items[0].sku, IntToString(items[0].amount), Cart.Skus(items[1..]));
      map[items[0].sku := IntToString(items[0].amount)] + rest
  }

  /** A map keyed by a list gains one key by a union on the left and a list one element in front. */
  lemma FirstKeys(m: map<string, string>, k: string, v: string, keys: seq<string>)
    requires forall x :: x in m <==> x in keys
    ensures forall x :: x in map[k := v] + m <==> x in [k] + keys
  {
  }

  /** With one line per sku, each sku's text is its own line's amount. */
  lemma {:induction false} AmountTextsOfUnique(items: seq<Cart.CartItem>, k: int)
    requires Cart.UniqueSkus(items) && 0 <= k < |items|
    ensures AmountTexts(items)[items[k].sku] == IntToString(items[k].amount)
    decreases |items|
  {
    var tail := items[1..];
    assert Cart.UniqueSkus(tail) by {
      forall i, j | 0 <= i < j < |tail| ensures tail[i].sku != tail[j].sku {
        assert tail[i] == items[i + 1] && tail[j] == items[j + 1];
      }
    }
    if k == 0 {
      assert items[0].sku !in Cart.Skus(tail) by {
        forall j | 0 <= j < |tail| ensures Cart.Skus(tail)[j] != items[0].sku {
          assert tail[j] == items[j + 1];
        }
      }
    } else {
      assert tail[k - 1] == items[k];
      AmountTextsOfUnique(tail, k - 1);
    }
  }

  /** A call the summary makes into the cart provider. */
  datatype CartCall = EditItem(sku: string, amount: int, price: int) | AddItem(sku: string, amount: int, price: int)

  /** A call of `getVariants`, with its `force` flag. */
  datatype VariantRequest = VariantRequest(skus: seq<string>, force: bool)

  /** What a pending quantity timer captured when it was set. */
  datatype PendingInput = PendingInput(value: string, inventory: Option<int>, currentAmount: int, variants: seq<VariantFull>)

  class Summary {
    var variantList: seq<VariantFull>
    var cartLoading: bool
    /** The text shown in each line's quantity box. */
    var inputAmount: map<string, string>
    /** The debounce timers not yet fired, by sku. */
    var pending: map<string, PendingInput>
    /** The cart mutations asked for, in order. */
    var calls: seq<CartCall>
    /** The variant fetches started, in order. */
    var requests: seq<VariantRequest>

    constructor ()
      ensures variantList == [] && cartLoading && inputAmount == map[] && pending == map[]
      ensures calls == [] && requests == []
    {
      variantList := [];
      cartLoading := true;
      inputAmount := map[];
      pending := map[];
      calls := [];
      requests := [];
    }

    /**
     * The two effects run when the cart changes: the boxes show the stored
     * amounts; an empty cart empties the variant list without a request,
     * otherwise its skus are fetched, from the cache if it can. `reply` is
     * what `getVariants` resolves with, `None` when it rejects: the
     * `finally` then clears the flag and the list stays.
     */
    method CartChanged(items: seq<Cart.CartItem>, reply: Option<seq<VariantFull>>)
      modifies this
      ensures inputAmount == AmountTexts(items) && !cartLoading
      ensures |items| == 0 ==> variantList == [] && requests == old(requests)
      ensures |items| > 0 ==> requests == old(requests) + [VariantRequest(Cart.Skus(items), false)]
      ensures |items| > 0 && reply.Some? ==> variantList == reply.value
      ensures |items| > 0 && reply.None? ==> variantList == old(variantList)
      ensures pending == old(pending) && calls == old(calls)
    {
      var skus := Cart.Skus(items);
      if |skus| == 0 {
        cartLoading := false;
        variantList := [];
      } else {
        cartLoading := true;
        requests := requests + [VariantRequest(skus, false)];
        if reply.Some? {
          variantList := reply.value;
        }
        cartLoading := false;
      }
      inputAmount := AmountTexts(items);
    }

    /**
     * `refreshVariantList`: the same fetch, forced past the cache; the
     * loading flag is left alone for an empty cart, and a rejected fetch
     * keeps the list.
     */
    method RefreshVariantList(items: seq<Cart.CartItem>, reply: Option<seq<VariantFull>>)
      modifies this
      ensures |items| == 0 ==> variantList == [] && requests == old(requests) && cartLoading == old(cartLoading)
      ensures |items| > 0 ==> !cartLoading && requests == old(requests) + [VariantRequest(Cart.Skus(items), true)]
      ensures |items| > 0 && reply.Some? ==> variantList == reply.value
      ensures |items| > 0 && reply.None? ==> variantList == old(variantList)
      ensures inputAmount == old(inputAmount) && pending == old(pending) && calls == old(calls)
    {
      var skus := Cart.Skus(items);
      if |skus| == 0 {
        variantList := [];
        return;
      }
      cartLoading := true;
      requests := requests + [VariantRequest(skus, true)];
      if reply.Some? {
        variantList := reply.value;
      }
      cartLoading := false;
    }

    /** `handleInputChange`: the box shows the typed text and the sku's timer starts again. */
    method InputChange(sku: string, value: string, inventory: Option<int>, currentAmount: int)
      modifies this
      ensures inputAmount == old(inputAmount)[sku := value]
      ensures pending == old(pending)[sku := PendingInput(value, inventory, currentAmount, old(variantList))]
      ensures variantList == old(variantList) && calls == old(calls) && requests == old(requests)
    {
      inputAmount := inputAmount[sku := value];
      pending := pending[sku := PendingInput(value, inventory, currentAmount, variantList)];
    }

    /**
     * The sku's timer fires: the clamped amount is shown, and the cart is
     * edited only when it differs from the amount the line had, at the
     * price of the variant list the timer was set with.
     */
    method TimerFires(sku: string)
      modifies this
      ensures sku !in old(pending) ==>
        inputAmount == old(inputAmount) && pending == old(pending) && calls == old(calls)
      ensures sku in old(pending) ==>
        var p := old(pending)[sku];
        var amount := Clamped(p.value, p.inventory);
        pending == old(pending) - {sku} && inputAmount == old(inputAmount)[sku := IntToString(amount)] &&
        calls == old(calls) + (if amount != p.currentAmount then [EditItem(sku, amount, EditPrice(FindVariant(p.variants, sku)))] else [])
      ensures variantList == old(variantList) && requests == old(requests)
    {
      if sku !in pending {
        return;
      }
      var p := pending[sku];
      var amount := ClampAmount(p.value, p.inventory);
      inputAmount := inputAmount[sku := IntToString(amount)];
      if amount != p.currentAmount {
        calls := calls + [EditItem(sku, amount, EditPrice(FindVariant(p.variants, sku)))];
      }
      pending := pending - {sku};
    }

    /** The OK button of the price-change notice: the stored price becomes the effective one. */
    method ConfirmPrice(item: Cart.CartItem, variant: VariantFull)
      modifies this
      ensures calls == old(calls) + [EditItem(item.sku, item.amount, EffectivePrice(variant.price, variant.discountPrice))]
      ensures variantList == old(variantList) && inputAmount == old(inputAmount) && pending == old(pending)
    {
      calls := calls + [EditItem(item.sku, item.amount, EffectivePrice(variant.price, variant.discountPrice))];
    }

    /** The minus button: one less, never below 1. */
    method Decrement(item: Cart.CartItem, variant: VariantFull)
      modifies this
      ensures item.amount > 1 ==>
        calls == old(calls) + [EditItem(item.sku, item.amount - 1, EffectivePrice(variant.price, variant.discountPrice))]
      ensures item.amount <= 1 ==> calls == old(calls)
      ensures variantList == old(variantList) && inputAmount == old(inputAmount) && pending == old(pending)
    {
      if item.amount > 1 {
        calls := calls + [EditItem(item.sku, item.amount - 1, EffectivePrice(variant.price, variant.discountPrice))];
      }
    }

    /** The plus button: adds one, disabled once a non-zero inventory is reached. */
    method Increment(item: Cart.CartItem, variant: VariantFull)
      modifies this
      ensures variant.inventory.Some? && variant.inventory.value != 0 && item.amount >= variant.inventory.value ==>
        calls == old(calls)
      ensures !(variant.inventory.Some? && variant.inventory.value != 0 && item.amount >= variant.inventory.value) ==>
        calls == old(calls) + [AddItem(item.sku, 1, EffectivePrice(variant.price, variant.discountPrice))]
      ensures variantList == old(variantList) && inputAmount == old(inputAmount) && pending == old(pending)
    {
      if !(variant.inventory.Some? && variant.inventory.value != 0 && item.amount >= variant.inventory.value) {
        calls := calls + [AddItem(item.sku, 1, EffectivePrice(variant.price, variant.discountPrice))];
      }
    }

    /** Either remove button: an edit to amount 0. */
    method Remove(sku: string)
      modifies this
      ensures calls == old(calls) + [EditItem(sku, 0, 0)]
      ensures variantList == old(variantList) && inputAmount == old(inputAmount) && pending == old(pending)
    {
      calls := calls + [EditItem(sku, 0, 0)];
    }
  }

  /** After the OK of the notice is applied to the cart, the line no longer shows it. */
  lemma ConfirmClearsNotice(cart: seq<Cart.CartItem>, item: Cart.CartItem, variant: VariantFull)
    requires item.amount > 0 && item.sku in Cart.Skus(cart)
    ensures var after := Cart.Find(Cart.Edited(cart, item.sku, item.amount, EffectivePrice(variant.price, variant.discountPrice)), item.sku);
      after.Some? && !PriceChanged(variant, after.value.price)
  {
    Cart.FindEditedPositive(cart, item.sku, item.amount, EffectivePrice(variant.price, variant.discountPrice));
  }

  /** Removing a line through either remove button drops its sku from the cart. */
  lemma RemoveDropsLine(cart: seq<Cart.CartItem>, sku: string)
    requires Cart.UniqueSkus(cart)
    ensures sku !in Cart.Skus(Cart.Edited(cart, sku, 0, 0))
  {
    if sku in Cart.Skus(cart) {
      Cart.EditedRemoves(cart, sku, 0, 0);
    } else {
      Cart.EditedAbsent(cart, sku, 0, 0);
    }
  }
}
