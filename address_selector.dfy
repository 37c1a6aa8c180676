/**
 * The address part of the checkout form
 * (src/app/checkout/AddressSelector.tsx): choosing one of the user's saved
 * addresses, switching to a manual address, which fields are locked, and
 * the point picked on the map.
 */
module AddressSelector {
  import opened Wrappers
  import opened Catalog
  import opened Checkout
  import Cart

  datatype Mode = Manual | Saved

  /** The form together with the choices of the district and khoroo selects and the mode. */
  datatype AddressState = AddressState(form: Form, mode: Mode, districts: seq<string>, khoroos: seq<string>)

  /** `isSelected`: in saved mode, the form holds this address's city, district, khoroo and description. */
  predicate IsSelected(mode: Mode, f: Form, addr: UserAddress) {
    mode == Saved && f.addressCity == addr.city && f.addressDistrict == addr.district &&
    f.addressKhoroo == addr.khoroo && f.addressDescription == addr.description
  }

  /** The saved list is shown for a user with at least one address. */
  predicate SavedListShown(addresses: Option<seq<UserAddress>>) {
    addresses.Some? && |addresses.value| > 0
  }

  /**
   * A saved address's button: its five address fields are copied into the
   * form, the selects get the address's choices (from the address lookup)
   * and the mode becomes saved.
   */
  function ChooseSaved(s: AddressState, addr: UserAddress, cityDistricts: seq<string>, districtKhoroos: seq<string>): AddressState {
    AddressState(
      s.form.(addressCity := addr.city, addressDistrict := addr.district, addressKhoroo := addr.khoroo,
              addressDescription := addr.description, addressPoint := addr.point),
      Saved, cityDistricts, districtKhoroos)
  }

  /** The manual button: only the mode changes. */
  function ChooseManual(s: AddressState): AddressState {
    s.(mode := Manual)
  }

  predicate CityDisabled(s: AddressState) {
    s.mode == Saved
  }

  predicate DistrictDisabled(s: AddressState) {
    s.form.addressCity == "" || s.mode == Saved
  }

  predicate KhorooDisabled(s: AddressState) {
    s.form.addressDistrict == "" || s.mode == Saved
  }

  predicate DescriptionDisabled(s: AddressState) {
    s.mode == Saved
  }

  /**
   * The chosen address is the one highlighted, with its point; the contact
   * and billing fields of the form are untouched and the address fields are
   * locked.
   */
  lemma ChosenIsSelected(s: AddressState, addr: UserAddress, ds: seq<string>, ks: seq<string>)
    ensures var r := ChooseSaved(s, addr, ds, ks);
      IsSelected(r.mode, r.form, addr) && r.form.addressPoint == addr.point &&
      r.form.email == s.form.email && r.form.name == s.form.name && r.form.phoneNumbers == s.form.phoneNumbers &&
      r.form.isBusiness == s.form.isBusiness && r.form.ttd == s.form.ttd && r.form.consumerNo == s.form.consumerNo &&
      r.form.note == s.form.note &&
      CityDisabled(r) && DistrictDisabled(r) && KhorooDisabled(r) && DescriptionDisabled(r)
  {
  }

  /** A saved address with its four fields filled leaves no address error for the submit. */
  lemma ChosenPassesAddressChecks(s: AddressState, addr: UserAddress, ds: seq<string>, ks: seq<string>, errors: map<Field, string>)
    requires addr.city != "" && addr.district != "" && addr.khoroo != "" && addr.description != ""
    requires ErrorsOf(errors, ChooseSaved(s, addr, ds, ks).form)
    ensures AddressCity !in errors && AddressDistrict !in errors && AddressKhoroo !in errors && AddressDescription !in errors
  {
    assert FieldValue(ChooseSaved(s, addr, ds, ks).form, AddressCity) == addr.city;
    assert FieldValue(ChooseSaved(s, addr, ds, ks).form, AddressDistrict) == addr.district;
    assert FieldValue(ChooseSaved(s, addr, ds, ks).form, AddressKhoroo) == addr.khoroo;
    assert FieldValue(ChooseSaved(s, addr, ds, ks).form, AddressDescription) == addr.description;
  }

  /**
   * In manual mode no saved address is highlighted, the form is as it was,
   * city and description are open, and district and khoroo open once the
   * field before them is chosen.
   */
  lemma ManualUnlocks(s: AddressState, addr: UserAddress)
    ensures var r := ChooseManual(s);
      r.form == s.form && !IsSelected(r.mode, r.form, addr) &&
      !CityDisabled(r) && !DescriptionDisabled(r) &&
      (DistrictDisabled(r) <==> s.form.addressCity == "") && (KhorooDisabled(r) <==> s.form.addressDistrict == "")
  {
  }

  // ---------------------------------------------------------------------
  // The map pick

  /** The form object as the map's handler leaves it: the form, plus any extra `point` key. */
  datatype PickedForm = PickedForm(form: Form, point: Option<string>)

  /** `` `${lat},${lng}` ``, the coordinates already rendered as text. */
  function PointText(lat: string, lng: string): string {
    lat + "," + lng
  }

  /** The map's `onSelect` as written: it sets a key `point`, which no part of the checkout reads. */
  function MapPickAsWritten(f: Form, lat: string, lng: string): PickedForm {
    PickedForm(f, Some(PointText(lat, lng)))
  }

  /** As written, a picked point never reaches the order: the payload is the one before the pick. */
  lemma MapPickAsWrittenLost(f: Form, lat: string, lng: string, cart: seq<Cart.CartItem>)
    ensures BuildPayload(MapPickAsWritten(f, lat, lng).form, cart) == BuildPayload(f, cart)
    ensures MapPickAsWritten(f, lat, lng).form.addressPoint == f.addressPoint
  {
  }

  /** Picking on the map of a fresh form still orders to the default point. */
  lemma MapPickAsWrittenExample(cart: seq<Cart.CartItem>)
    ensures BuildPayload(MapPickAsWritten(INITIAL_FORM, "47.9", "106.8").form, cart).addressPoint == DEFAULT_POINT
    ensures DEFAULT_POINT != PointText("47.9", "106.8")
  {
    assert PointText("47.9", "106.8")[1] == '7';
    assert DEFAULT_POINT[1] == '7';
    assert |PointText("47.9", "106.8")| != |DEFAULT_POINT|;
  }

  /** The pick as intended: the point goes into `address_point`. */
  function MapPick(f: Form, lat: string, lng: string): Form {
    f.(addressPoint := PointText(lat, lng))
  }

  /** The map is only pickable in manual mode. */
  function MapSelect(s: AddressState, lat: string, lng: string): AddressState {
    if s.mode == Manual then s.(form := MapPick(s.form, lat, lng)) else s
  }

  /** A manual pick is what the order carries, and changes nothing else of it. */
  lemma MapPickReachesOrder(s: AddressState, lat: string, lng: string, cart: seq<Cart.CartItem>)
    requires s.mode == Manual
    ensures BuildPayload(MapSelect(s, lat, lng).form, cart) ==
      BuildPayload(s.form, cart).(addressPoint := PointText(lat, lng))
  {
  }

  /** In saved mode the map shows the saved point and a pick changes nothing. */
  lemma SavedIgnoresMap(s: AddressState, lat: string, lng: string)
    requires s.mode == Saved
    ensures MapSelect(s, lat, lng) == s
  {
  }
}
