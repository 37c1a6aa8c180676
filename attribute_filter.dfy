/**
 * The attribute filter of the product listing
 * (src/components/listing/AttributeFilterList.tsx): which attribute panels
 * are open, which values can be chosen and which are checked, and how a
 * colour value is drawn as a swatch.
 */
module AttributeFilter {
  import opened Wrappers
  import opened Strings
  import opened Colors
  import opened Catalog
  import opened Listing

  /** `selected.some(sa => sa.attribute === name)`. */
  predicate NameSelected(selected: seq<Selection>, name: string) {
    exists k | 0 <= k < |selected| :: selected[k].attribute == name
  }

  /** The set of open panels with membership of `i` flipped. */
  function Flipped(s: set<int>, i: int): (r: set<int>)
    ensures i in r <==> i !in s
    ensures forall j | j != i :: j in r <==> j in s
  {
    if i in s then s - {i} else s + {i}
  }

  /** Flipping a panel twice leaves the set as it was. */
  lemma FlippedTwice(s: set<int>, i: int)
    ensures Flipped(Flipped(s, i), i) == s
  {
  }

  /**
   * The effect's loop over `attributes`: the indices of the attributes whose
   * name occurs among the selected pairs.
   */
  method DeriveExpanded(attributes: seq<Attribute>, selected: seq<Selection>) returns (expanded: set<int>)
    ensures forall i :: i in expanded <==> 0 <= i < |attributes| && NameSelected(selected, attributes[i].name)
  {
    expanded := {};
    var i := 0;
    while i < |attributes|
      invariant 0 <= i <= |attributes|
      invariant forall j :: j in expanded <==> 0 <= j < i && NameSelected(selected, attributes[j].name)
    {
      if NameSelected(selected, attributes[i].name) {
        expanded := expanded + {i};
      }
      i := i + 1;
    }
  }

  /** The `expandedAttributes` state: the indices of the open panels. */
  class AttributePanels {
    var expanded: set<int>

    constructor ()
      ensures expanded == {}
    {
      expanded := {};
    }

    predicate IsOpen(i: int)
      reads this
    {
      i in expanded
    }

    /** `toggleExpand(i)`: panel `i` opens or closes, every other panel stays. */
    method ToggleExpand(i: int)
      modifies this
      ensures expanded == Flipped(old(expanded), i)
      ensures IsOpen(i) <==> !old(IsOpen(i))
      ensures forall j | j != i :: IsOpen(j) <==> old(IsOpen(j))
    {
      if i in expanded {
        expanded := expanded - {i};
      } else {
        expanded := expanded + {i};
      }
    }

    /** The effect run when the attributes or the selection change: manual toggles are forgotten. */
    method Rederive(attributes: seq<Attribute>, selected: seq<Selection>)
      modifies this
      ensures forall i :: IsOpen(i) <==> 0 <= i < |attributes| && NameSelected(selected, attributes[i].name)
    {
      expanded := DeriveExpanded(attributes, selected);
    }
  }

  /** Selecting a value that was not selected leaves every panel of that attribute open after the effect. */
  lemma ToggleOnOpensPanel(attributes: seq<Attribute>, prev: seq<Selection>, i: int, value: string)
    requires 0 <= i < |attributes|
    requires Selection(attributes[i].name, Some(value)) !in prev
    ensures NameSelected(Toggle(prev, attributes[i].name, value), attributes[i].name)
  {
    var s := Selection(attributes[i].name, Some(value));
    var next := Toggle(prev, attributes[i].name, value);
    assert next == prev + [s];
    assert next[|prev|] == s;
  }

  /** `list.find(a => a.name === name)`. */
  function FindAttribute(list: seq<Attribute>, name: string): (r: Option<Attribute>)
    ensures r.None? <==> forall k | 0 <= k < |list| :: list[k].name != name
    ensures r.Some? ==>
      exists k | 0 <= k < |list| :: list[k] == r.value && r.value.name == name && forall j | 0 <= j < k :: list[j].name != name
  {
    if |list| == 0 then None
    else if list[0].name == name then Some(list[0])
    else
      var r := FindAttribute(list[1..], name);
      assert forall k | 1 <= k < |list| :: list[k] == list[1..][k - 1];
      r
  }

  /**
   * `isAvailable`: the first available attribute with this name lists the
   * value; `false` when no available attribute has the name.
   */
  function IsAvailable(available: seq<Attribute>, name: string, value: string): bool {
    match FindAttribute(available, name)
    case Some(a) => value in a.values
    case None => false
  }

  lemma IsAvailableSpec(available: seq<Attribute>, name: string, value: string)
    ensures IsAvailable(available, name, value) <==>
      exists k | 0 <= k < |available| ::
        available[k].name == name && value in available[k].values && forall j | 0 <= j < k :: available[j].name != name
  {
    var r := FindAttribute(available, name);
    if r.Some? {
      var k :| 0 <= k < |available| && available[k] == r.value && r.value.name == name &&
        forall j | 0 <= j < k :: available[j].name != name;
    }
  }

  /** The checkbox of `value` under attribute `name` is checked. */
  predicate IsChecked(selected: seq<Selection>, name: string, value: string) {
    Selection(name, Some(value)) in selected
  }

  /** Clicking a value's checkbox flips its own checked state and no other. */
  lemma ToggleFlipsChecked(selected: seq<Selection>, name: string, value: string)
    ensures IsChecked(Toggle(selected, name, value), name, value) <==> !IsChecked(selected, name, value)
    ensures forall n, v | n != name || v != value :: IsChecked(Toggle(selected, name, value), n, v) <==> IsChecked(selected, n, v)
  {
    ToggleFlips(selected, name, value);
  }

  /** The value is drawn as a swatch: trimmed, it is a single or a multi-colour text. */
  predicate IsColorValue(value: string) {
    IsSingleColor(Trim(value)) || IsMultiColor(Trim(value))
  }

  /** The swatch colours: the trimmed `/`-pieces of the value that are single colours. */
  function SwatchColors(value: string): seq<string> {
    KeepSingleColors(ColorPieces(value))
  }

  /** The background of the value's swatch, or `None` when it is drawn as a plain checkbox. */
  function Swatch(value: string): Option<string> {
    if IsColorValue(value) then Some(SwatchBackground(SwatchColors(value))) else None
  }

  /**
   * For a colour value nothing is filtered out: the swatch colours are the
   * pieces of the trimmed value, one exactly for a single colour.
   */
  lemma SwatchColorsSpec(value: string)
    requires IsColorValue(value)
    ensures SwatchColors(value) == Split(Trim(value), '/')
    ensures |SwatchColors(value)| >= 1
    ensures |SwatchColors(value)| == 1 <==> IsSingleColor(Trim(value))
    ensures forall k | 0 <= k < |SwatchColors(value)| :: IsSingleColor(SwatchColors(value)[k])
  {
    ColorValuePieces(value);
  }

  /** A single colour is drawn as itself, trimmed. */
  lemma SwatchOfSingleColor(value: string)
    requires IsSingleColor(Trim(value))
    ensures Swatch(value) == Some(Trim(value))
  {
    SwatchColorsSpec(value);
    SingleHasNoSlash(Trim(value));
    SplitNoSeparator(Trim(value), '/');
  }

  /** Two colours are drawn as a 45° half split, more as a 90° gradient through all of them. */
  lemma SwatchOfMultiColor(value: string)
    requires IsMultiColor(Trim(value))
    ensures var pieces := Split(Trim(value), '/');
      Swatch(value) ==
        if |pieces| == 2 then Some("linear-gradient(45deg, " + pieces[0] + " 50%, " + pieces[1] + " 50%)")
        else Some("linear-gradient(90deg, " + JoinComma(pieces) + ")")
  {
    SwatchColorsSpec(value);
  }
}
