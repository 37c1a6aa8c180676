/**
 * The checkout page (src/app/checkout/page.tsx): the form, its validation,
 * the order in which a submit is checked, the order payload, the address
 * handlers and the captcha step that sends the order.
 */
module Checkout {
  import opened Wrappers
  import opened ClientStore
  import Cart

  const DEFAULT_CITY: string := "Улаанбаатар"
  /** The point used when a city has none. */
  const DEFAULT_POINT: string := "47.918, 106.917"

  /** The `formFields` state. */
  datatype Form = Form(
    email: string,
    name: string,
    phoneNumbers: string,
    isBusiness: bool,
    ttd: string,
    consumerNo: string,
    note: string,
    addressCity: string,
    addressDistrict: string,
    addressKhoroo: string,
    addressDescription: string,
    addressPoint: string)

  const INITIAL_FORM: Form := Form("", "", "", false, "", "", "", DEFAULT_CITY, "", "", "", DEFAULT_POINT)

  /** The fields `validate` checks, which are also the keys of `formErrors`. */
  datatype Field = Email | Name | PhoneNumbers | AddressCity | AddressDistrict | AddressKhoroo | AddressDescription

  /** The fields of the contact half of the form. */
  predicate IsContact(k: Field) {
    k.Email? || k.Name? || k.PhoneNumbers?
  }

  /** The form value a field holds. */
  function FieldValue(f: Form, k: Field): string {
    match k
    case Email => f.email
    case Name => f.name
    case PhoneNumbers => f.phoneNumbers
    case AddressCity => f.addressCity
    case AddressDistrict => f.addressDistrict
    case AddressKhoroo => f.addressKhoroo
    case AddressDescription => f.addressDescription
  }

  /** The message shown for a missing field. */
  function Message(k: Field): string {
    match k
    case Email => "И-мэйл шаардлагатай"
    case Name => "Нэр шаардлагатай"
    case PhoneNumbers => "Утас шаардлагатай"
    case AddressCity => "Хот/Аймаг сонгоно уу"
    case AddressDistrict => "Дүүрэг/Сум сонгоно уу"
    case AddressKhoroo => "Хороо/Баг сонгоно уу"
    case AddressDescription => "Дэлгэрэнгүй хаяг шаардлагатай"
  }

  /** An error for `k` stands in `errors` exactly when the field is empty, with its message. */
  predicate ErrorsOf(errors: map<Field, string>, f: Form) {
    forall k :: (k in errors <==> FieldValue(f, k) == "") && (k in errors ==> errors[k] == Message(k))
  }

  /** The contact half of `validate`. */
  method ValidateContact(f: Form) returns (errors: map<Field, string>)
    ensures forall k | IsContact(k) ::
      (k in errors <==> FieldValue(f, k) == "") && (k in errors ==> errors[k] == Message(k))
    ensures forall k | k in errors :: IsContact(k)
  {
    errors := map[];
    if f.email == "" {
      errors := errors[Email := Message(Email)];
    }
    if f.name == "" {
      errors := errors[Name := Message(Name)];
    }
    if f.phoneNumbers == "" {
      errors := errors[PhoneNumbers := Message(PhoneNumbers)];
    }
  }

  /** The address half of `validate`, added to the contact errors. */
  method ValidateAddress(f: Form, contact: map<Field, string>) returns (errors: map<Field, string>)
    requires forall k | k in contact :: IsContact(k)
    ensures forall k | IsContact(k) ::
      (k in errors <==> k in contact) && (k in errors ==> errors[k] == contact[k])
    ensures forall k | !IsContact(k) ::
      (k in errors <==> FieldValue(f, k) == "") && (k in errors ==> errors[k] == Message(k))
  {
    errors := contact;
    if f.addressCity == "" {
      errors := errors[AddressCity := Message(AddressCity)];
    }
    if f.addressDistrict == "" {
      errors := errors[AddressDistrict := Message(AddressDistrict)];
    }
    if f.addressKhoroo == "" {
      errors := errors[AddressKhoroo := Message(AddressKhoroo)];
    }
    if f.addressDescription == "" {
      errors := errors[AddressDescription := Message(AddressDescription)];
    }
  }

  /** `validate()`: one error per empty required field, and no other. */
  method Validate(f: Form) returns (errors: map<Field, string>)
    ensures ErrorsOf(errors, f)
  {
    var contact := ValidateContact(f);
    errors := ValidateAddress(f, contact);
  }

  /** The errors of a form are determined by the form. */
  lemma ErrorsOfUnique(e1: map<Field, string>, e2: map<Field, string>, f: Form)
    requires ErrorsOf(e1, f) && ErrorsOf(e2, f)
    ensures e1 == e2
  {
  }

  /** A form with every required field filled has no errors. */
  lemma FilledFormHasNoErrors(errors: map<Field, string>, f: Form)
    requires ErrorsOf(errors, f)
    requires forall k :: FieldValue(f, k) != ""
    ensures errors == map[]
  {
  }

  /** What `handleSubmit` reads off the errors: the phone's, any at all, and any of the address. */
  lemma ErrorsReadBack(errors: map<Field, string>, f: Form)
    requires ErrorsOf(errors, f)
    ensures PhoneNumbers in errors <==> f.phoneNumbers == ""
    ensures |errors| > 0 <==> exists k :: FieldValue(f, k) == ""
    ensures (AddressCity in errors || AddressDistrict in errors || AddressKhoroo in errors || AddressDescription in errors) <==>
      (f.addressCity == "" || f.addressDistrict == "" || f.addressKhoroo == "" || f.addressDescription == "")
  {
    assert FieldValue(f, PhoneNumbers) == f.phoneNumbers;
    assert FieldValue(f, AddressCity) == f.addressCity && FieldValue(f, AddressDistrict) == f.addressDistrict;
    assert FieldValue(f, AddressKhoroo) == f.addressKhoroo && FieldValue(f, AddressDescription) == f.addressDescription;
    if |errors| > 0 {
      var k :| k in errors;
      assert FieldValue(f, k) == "";
    }
    if exists k :: FieldValue(f, k) == "" {
      var k :| FieldValue(f, k) == "";
      assert k in errors;
    }
  }

  /** One product of the order: `{ sku, price, amount }`. */
  datatype OrderLine = OrderLine(sku: string, price: int, amount: int)

  datatype Payload = Payload(
    products: seq<OrderLine>,
    name: string,
    phoneNumbers: string,
    email: string,
    note: string,
    addressPoint: string,
    addressCity: string,
    addressDistrict: string,
    addressKhoroo: string,
    addressDescription: string,
    isBusiness: bool,
    ttd: Option<string>,
    consumerNo: Option<string>)

  function OrderLines(cart: seq<Cart.CartItem>): (lines: seq<OrderLine>)
    ensures |lines| == |cart|
    ensures forall k | 0 <= k < |cart| :: lines[k] == OrderLine(cart[k].sku, cart[k].price, cart[k].amount)
  {
    if |cart| == 0 then [] else [OrderLine(cart[0].sku, cart[0].price, cart[0].amount)] + OrderLines(cart[1..])
  }

  /**
   * The payload of a valid submit: the cart reduced to its lines and the
   * form's fields; a tax number only for a business that gave one, a
   * consumer number only for a person who gave one.
   */
  function BuildPayload(f: Form, cart: seq<Cart.CartItem>): (p: Payload)
    ensures p.products == OrderLines(cart)
    ensures p.ttd.Some? <==> f.isBusiness && f.ttd != ""
    ensures p.ttd.Some? ==> p.ttd.value == f.ttd
    ensures p.consumerNo.Some? <==> !f.isBusiness && f.consumerNo != ""
    ensures p.consumerNo.Some? ==> p.consumerNo.value == f.consumerNo
    ensures !(p.ttd.Some? && p.consumerNo.Some?)
  {
    Payload(OrderLines(cart), f.name, f.phoneNumbers, f.email, f.note, f.addressPoint, f.addressCity,
      f.addressDistrict, f.addressKhoroo, f.addressDescription, f.isBusiness,
      if f.isBusiness && f.ttd != "" then Some(f.ttd) else None,
      if !f.isBusiness && f.consumerNo != "" then Some(f.consumerNo) else None)
  }

  /** How a submit ended. */
  datatype SubmitOutcome =
    | EmailNotVerified
    | CartEmpty
    | PhoneMissing
    | FieldsMissing(scrollToAddress: bool)
    | AwaitingCaptcha

  /** The endpoint an order goes to: the provider's for a signed-in user, the public one otherwise. */
  datatype Endpoint = SubmitOrder | CreateOrder

  /** One order request: the pending payload and the captcha token. */
  datatype OrderRequest = OrderRequest(endpoint: Endpoint, payload: Payload, token: string)

  /** The reply to an order request: an order with an id (an empty id counts as none), anything else, or a thrown error. */
  datatype OrderReply = OrderCreated(id: string) | NoOrder | Threw

  class CheckoutPage {
    const store: Store
    var form: Form
    /** The district and khoroo choices of the selects. */
    var districts: seq<string>
    var khoroos: seq<string>
    var formErrors: map<Field, string>
    var submitting: bool
    var emailVerified: bool
    var showOrderTurnstile: bool
    var pendingOrderPayload: Option<Payload>
    /** The order requests sent, in order. */
    var orders: seq<OrderRequest>
    /** The page the browser was sent to, if any. */
    var location: Option<string>
    /** How often the cart summary was asked to refresh its variants. */
    var variantRefreshes: nat

    /** The page's initial state; the districts of the default city come from the address lookup. */
    constructor (store: Store, defaultDistricts: seq<string>)
      ensures this.store == store && form == INITIAL_FORM && districts == defaultDistricts && khoroos == []
      ensures formErrors == map[] && !submitting && !emailVerified && !showOrderTurnstile && pendingOrderPayload == None
      ensures orders == [] && location == None && variantRefreshes == 0
    {
      this.store := store;
      form := INITIAL_FORM;
      districts := defaultDistricts;
      khoroos := [];
      formErrors := map[];
      submitting := false;
      emailVerified := false;
      showOrderTurnstile := false;
      pendingOrderPayload := None;
      orders := [];
      location := None;
      variantRefreshes := 0;
    }

    /**
     * `handleCityChange(city)`: the district and khoroo are cleared, the
     * point becomes the city's first one (the default when it has none) and
     * the district choices are the city's.
     */
    method CityChange(city: string, cityPoints: seq<string>, cityDistricts: seq<string>)
      modifies this
      ensures form == old(form).(addressCity := city, addressDistrict := "", addressKhoroo := "",
        addressPoint := if |cityPoints| > 0 && cityPoints[0] != "" then cityPoints[0] else DEFAULT_POINT)
      ensures districts == cityDistricts && khoroos == []
      ensures formErrors == old(formErrors) && pendingOrderPayload == old(pendingOrderPayload) && orders == old(orders)
    {
      var cityPoint := if |cityPoints| > 0 && cityPoints[0] != "" then cityPoints[0] else DEFAULT_POINT;
      form := form.(addressCity := city, addressDistrict := "", addressKhoroo := "", addressPoint := cityPoint);
      districts := cityDistricts;
      khoroos := [];
    }

    /** `handleDistrictChange(district)`: the khoroo is cleared; the choices are those of the current city's district. */
    method DistrictChange(district: string, districtKhoroos: seq<string>)
      modifies this
      ensures form == old(form).(addressDistrict := district, addressKhoroo := "")
      ensures khoroos == districtKhoroos && districts == old(districts)
      ensures formErrors == old(formErrors) && pendingOrderPayload == old(pendingOrderPayload) && orders == old(orders)
    {
      form := form.(addressDistrict := district, addressKhoroo := "");
      khoroos := districtKhoroos;
    }

    /** `handleKhorooChange(khoroo)`. */
    method KhorooChange(khoroo: string)
      modifies this
      ensures form == old(form).(addressKhoroo := khoroo)
      ensures formErrors == old(formErrors) && pendingOrderPayload == old(pendingOrderPayload) && orders == old(orders)
    {
      form := form.(addressKhoroo := khoroo);
    }

    /** `onClearError(field)`: that field's error goes, every other stays. */
    method ClearError(field: Field)
      modifies this
      ensures field !in formErrors
      ensures forall k | k != field :: (k in formErrors <==> k in old(formErrors)) && (k in formErrors ==> formErrors[k] == old(formErrors)[k])
      ensures form == old(form) && pendingOrderPayload == old(pendingOrderPayload) && orders == old(orders)
    {
      formErrors := formErrors - {field};
    }

    /**
     * `handleSubmit`: the email must be verified, then the cart be
     * non-empty, then the phone given, then every other field; the first
     * failure ends the submit. A valid submit only keeps the payload and
     * shows the captcha: it sends nothing.
     */
    method Submit(cart: seq<Cart.CartItem>) returns (outcome: SubmitOutcome)
      modifies this
      ensures !emailVerified ==> outcome == EmailNotVerified
      ensures emailVerified && |cart| == 0 ==> outcome == CartEmpty
      ensures emailVerified && |cart| > 0 && form.phoneNumbers == "" ==> outcome == PhoneMissing
      ensures emailVerified && |cart| > 0 && form.phoneNumbers != "" && (exists k :: FieldValue(form, k) == "") ==>
        outcome == FieldsMissing(form.addressCity == "" || form.addressDistrict == "" || form.addressKhoroo == "" || form.addressDescription == "")
      ensures outcome.PhoneMissing? || outcome.FieldsMissing? ==> ErrorsOf(formErrors, form)
      ensures !(outcome.PhoneMissing? || outcome.FieldsMissing?) ==> formErrors == old(formErrors)
      ensures outcome == AwaitingCaptcha <==> emailVerified && |cart| > 0 && forall k :: FieldValue(form, k) != ""
      ensures outcome == AwaitingCaptcha ==> pendingOrderPayload == Some(BuildPayload(form, cart)) && showOrderTurnstile
      ensures outcome != AwaitingCaptcha ==>
        pendingOrderPayload == old(pendingOrderPayload) && showOrderTurnstile == old(showOrderTurnstile)
      ensures form == old(form) && emailVerified == old(emailVerified) && orders == old(orders) && submitting == old(submitting)
    {
      var errors := Validate(form);
      ErrorsReadBack(errors, form);
      if !emailVerified {
        return EmailNotVerified;
      }
      if |cart| == 0 {
        return CartEmpty;
      }
      if PhoneNumbers in errors {
        formErrors := errors;
        return PhoneMissing;
      }
      if |errors| > 0 {
        formErrors := errors;
        return FieldsMissing(AddressCity in errors || AddressDistrict in errors || AddressKhoroo in errors || AddressDescription in errors);
      }
      pendingOrderPayload := Some(BuildPayload(form, cart));
      showOrderTurnstile := true;
      return AwaitingCaptcha;
    }

    /**
     * `handleOrderTurnstileVerify(token)`: without a pending payload nothing
     * happens. Otherwise the payload goes with the token to the endpoint
     * for the session; an order with an id clears the stored cart and leaves
     * for the order's page, any other reply refreshes the variants. Every
     * attempt ends with the payload dropped and the captcha hidden.
     */
    method CaptchaVerified(token: string, reply: OrderReply)
      modifies this, store
      ensures old(pendingOrderPayload).None? ==>
        orders == old(orders) && submitting == old(submitting) && showOrderTurnstile == old(showOrderTurnstile) &&
        location == old(location) && unchanged(store)
      ensures old(pendingOrderPayload).Some? ==>
        orders == old(orders) + [OrderRequest(if old(store.IsLoggedIn()) then SubmitOrder else CreateOrder, old(pendingOrderPayload).value, token)] &&
        pendingOrderPayload == None && !showOrderTurnstile
      ensures old(pendingOrderPayload).Some? && reply.OrderCreated? && reply.id != "" ==>
        Cart.GetCart(store) == [] && location == Some("/order/" + reply.id) && submitting && variantRefreshes == old(variantRefreshes) &&
        store.cookies == (if store.browser then old(store.cookies) - {CART_COOKIE_NAME} else old(store.cookies)) &&
        store.local == old(store.local) && store.browser == old(store.browser) && store.now == old(store.now)
      ensures old(pendingOrderPayload).Some? && (reply.NoOrder? || reply == OrderCreated("")) ==>
        !submitting && variantRefreshes == old(variantRefreshes) + 1 && location == old(location) && unchanged(store)
      ensures old(pendingOrderPayload).Some? && reply.Threw? ==>
        !submitting && variantRefreshes == old(variantRefreshes) && location == old(location) && unchanged(store)
      ensures form == old(form) && formErrors == old(formErrors)
    {
      if pendingOrderPayload.None? {
        return;
      }
      submitting := true;
      var endpoint := if store.IsLoggedIn() then SubmitOrder else CreateOrder;
      orders := orders + [OrderRequest(endpoint, pendingOrderPayload.value, token)];
      OrderReplied(reply);
      showOrderTurnstile := false;
      pendingOrderPayload := None;
    }

    /** The order's reply: an id leaves for the order page with the cart cleared, anything else stays. */
    method OrderReplied(reply: OrderReply)
      modifies this, store
      ensures reply.OrderCreated? && reply.id != "" ==>
        Cart.GetCart(store) == [] && location == Some("/order/" + reply.id) && submitting == old(submitting) &&
        variantRefreshes == old(variantRefreshes) &&
        store.cookies == (if store.browser then old(store.cookies) - {CART_COOKIE_NAME} else old(store.cookies)) &&
        store.local == old(store.local) && store.browser == old(store.browser) && store.now == old(store.now)
      ensures reply.NoOrder? || reply == OrderCreated("") ==>
        !submitting && variantRefreshes == old(variantRefreshes) + 1 && location == old(location) && unchanged(store)
      ensures reply.Threw? ==>
        !submitting && variantRefreshes == old(variantRefreshes) && location == old(location) && unchanged(store)
      ensures form == old(form) && formErrors == old(formErrors) && orders == old(orders)
      ensures pendingOrderPayload == old(pendingOrderPayload) && showOrderTurnstile == old(showOrderTurnstile)
    {
      match reply {
        case OrderCreated(id) =>
          if id != "" {
            Cart.ClearCart(store);
            location := Some("/order/" + id);
          } else {
            variantRefreshes := variantRefreshes + 1;
            submitting := false;
          }
        case NoOrder =>
          variantRefreshes := variantRefreshes + 1;
          submitting := false;
        case Threw =>
          submitting := false;
      }
    }
  }

  /** A submit that reaches the captcha carries exactly the cart's lines, in order. */
  lemma PayloadKeepsCart(f: Form, cart: seq<Cart.CartItem>, k: int)
    requires 0 <= k < |cart|
    ensures BuildPayload(f, cart).products[k].sku == cart[k].sku
    ensures BuildPayload(f, cart).products[k].amount == cart[k].amount
    ensures BuildPayload(f, cart).products[k].price == cart[k].price
  {
  }
}
