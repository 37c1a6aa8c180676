/**
 * The phone list of the checkout form (src/app/checkout/PhoneNumbers.tsx):
 * eight-digit phone validation, the parse of the comma-separated prop, the
 * indices shown as invalid, and the add and remove handlers that report the
 * valid phones to the form.
 */
module PhoneNumbers {
  import opened Strings
  import opened Lists

  /** The `maxLength` of the phone input. */
  const INPUT_MAX_LENGTH: nat := 8

  /** `validatePhone`: exactly eight digits once every non-digit is removed. */
  predicate ValidPhone(phone: string) {
    |KeepDigits(phone)| == 8
  }

  /** The digit filter keeps every character exactly when every character is a digit. */
  lemma {:induction false} KeepDigitsKeepsAll(s: string)
    ensures |KeepDigits(s)| == |s| <==> forall i | 0 <= i < |s| :: IsDigit(s[i])
    decreases |s|
  {
    if |s| > 0 {
      KeepDigitsKeepsAll(s[1..]);
      assert forall i | 1 <= i < |s| :: s[i] == s[1..][i - 1];
    }
  }

  /** No longer than the input allows, a phone is valid exactly when it is eight digits. */
  lemma ShortValidPhone(phone: string)
    requires |phone| <= INPUT_MAX_LENGTH
    ensures ValidPhone(phone) <==> |phone| == 8 && forall i | 0 <= i < |phone| :: IsDigit(phone[i])
  {
    KeepDigitsKeepsAll(phone);
  }

  /** `.filter(p => p.length > 0)`. */
  function NonEmpty(list: seq<string>): (r: seq<string>)
    ensures forall k | 0 <= k < |r| :: r[k] != "" && r[k] in list
    ensures forall x | x in list && x != "" :: x in r
  {
    if |list| == 0 then []
    else if list[0] == "" then NonEmpty(list[1..])
    else [list[0]] + NonEmpty(list[1..])
  }

  lemma {:induction false} NonEmptyOfNonEmpty(list: seq<string>)
    requires forall k | 0 <= k < |list| :: list[k] != ""
    ensures NonEmpty(list) == list
  {
    if |list| > 0 {
      NonEmptyOfNonEmpty(list[1..]);
      assert list == [list[0]] + list[1..];
    }
  }

  /** The effect on the prop: `(phoneNumbers || '').split(',').map(p => p.trim()).filter(p => p.length > 0)`. */
  function ParsePhones(phoneNumbers: string): seq<string> {
    NonEmpty(TrimAll(Split(phoneNumbers, ',')))
  }

  /**
   * An entry as the list holds it: non-empty, trimmed, and free of commas
   * when it is valid (so that the reported text splits back into it).
   */
  predicate Tidy(entry: string) {
    entry != "" && Trim(entry) == entry && (ValidPhone(entry) ==> ',' !in entry)
  }

  /** Every entry of the list is tidy. */
  predicate AllTidy(list: seq<string>) {
    forall e | e in list :: Tidy(e)
  }

  /** Appending a tidy entry keeps the list tidy. */
  lemma TidyAppended(list: seq<string>, entry: string)
    requires AllTidy(list) && Tidy(entry)
    ensures AllTidy(list + [entry])
  {
    forall e | e in list + [entry]
      ensures Tidy(e)
    {
      if e != entry {
        assert e in list;
      }
    }
  }

  /** Deleting an entry keeps the list tidy. */
  lemma TidyWithoutIndex(list: seq<string>, index: int)
    requires AllTidy(list)
    ensures AllTidy(WithoutIndex(list, index))
  {
    WithoutIndexSpec(list, index);
    if 0 <= index < |list| {
      var r := list[..index] + list[index + 1..];
      forall e | e in r
        ensures Tidy(e)
      {
        if e in list[..index] {
          var k :| 0 <= k < index && list[..index][k] == e;
          assert list[k] == e;
        } else {
          assert e in list[index + 1..];
          var k :| 0 <= k < |list| - index - 1 && list[index + 1..][k] == e;
          assert list[index + 1 + k] == e;
        }
      }
    }
  }

  /** A comma-free piece stays comma-free when trimmed, and its trim is trimmed. */
  lemma TrimmedPiece(piece: string)
    requires ',' !in piece
    ensures Trim(Trim(piece)) == Trim(piece) && ',' !in Trim(piece)
  {
    TrimIdempotent(piece);
    if ',' in Trim(piece) {
      TrimWithin(piece, ',');
    }
  }

  /** Every parsed entry is non-empty, trimmed and holds no comma. */
  lemma ParsePhonesTidy(phoneNumbers: string)
    ensures forall e | e in ParsePhones(phoneNumbers) :: e != "" && Trim(e) == e && ',' !in e
    ensures AllTidy(ParsePhones(phoneNumbers))
  {
    var pieces := Split(phoneNumbers, ',');
    var trimmed := TrimAll(pieces);
    forall e | e in trimmed
      ensures Trim(e) == e && ',' !in e
    {
      var k :| 0 <= k < |trimmed| && trimmed[k] == e;
      TrimmedPiece(pieces[k]);
    }
  }

  /** `.filter(p => validatePhone(p))`. */
  function ValidPhones(list: seq<string>): (r: seq<string>)
    ensures |r| <= |list|
    ensures forall k | 0 <= k < |r| :: ValidPhone(r[k]) && r[k] in list
    ensures forall x | x in list && ValidPhone(x) :: x in r
  {
    if |list| == 0 then []
    else if ValidPhone(list[0]) then [list[0]] + ValidPhones(list[1..])
    else ValidPhones(list[1..])
  }

  /** What the form receives after an add or a remove: the valid phones joined by `,`. */
  function Reported(list: seq<string>): string {
    Join(ValidPhones(list), ',')
  }

  /** The valid entries of a tidy list are non-empty, trimmed and comma-free. */
  lemma ValidOfTidy(list: seq<string>)
    requires AllTidy(list)
    ensures forall e | e in ValidPhones(list) :: e != "" && Trim(e) == e && ',' !in e
  {
  }

  /**
   * The form's value parses back to exactly the valid entries of the list:
   * once the form passes its value down again, the invalid entries are gone.
   */
  lemma ReportedParsesToValid(list: seq<string>)
    requires AllTidy(list)
    ensures ParsePhones(Reported(list)) == ValidPhones(list)
  {
    var v := ValidPhones(list);
    ValidOfTidy(list);
    if |v| == 0 {
      assert Split("", ',') == [""];
      assert Trim("") == "";
      assert TrimAll([""]) == [""];
    } else {
      assert forall k | 0 <= k < |v| :: ',' !in v[k] && Trim(v[k]) == v[k] && v[k] != "";
      SplitJoin(v, ',');
      assert TrimAll(v) == v;
      NonEmptyOfNonEmpty(v);
    }
  }

  /** The invalid-index effect: the indices of the invalid entries, ascending. */
  predicate InvalidIndexesOf(invalids: seq<int>, list: seq<string>) {
    (forall k | 0 <= k < |invalids| :: 0 <= invalids[k] < |list| && !ValidPhone(list[invalids[k]])) &&
    (forall i | 0 <= i < |list| && !ValidPhone(list[i]) :: i in invalids) &&
    (forall j, k | 0 <= j < k < |invalids| :: invalids[j] < invalids[k])
  }

  /** The effect's `forEach`, pushing each invalid index. */
  method InvalidIndexes(list: seq<string>) returns (invalids: seq<int>)
    ensures InvalidIndexesOf(invalids, list)
  {
    invalids := [];
    var i := 0;
    while i < |list|
      invariant 0 <= i <= |list|
      invariant forall k | 0 <= k < |invalids| :: 0 <= invalids[k] < i && !ValidPhone(list[invalids[k]])
      invariant forall j | 0 <= j < i && !ValidPhone(list[j]) :: j in invalids
      invariant forall j, k | 0 <= j < k < |invalids| :: invalids[j] < invalids[k]
    {
      if !ValidPhone(list[i]) {
        invalids := invalids + [i];
      }
      i := i + 1;
    }
  }

  /** The trimmed text of the input, when not blank, is a tidy entry. */
  lemma AddedEntryTidy(input: string)
    requires |input| <= INPUT_MAX_LENGTH && Trim(input) != ""
    ensures Tidy(Trim(input))
  {
    var phone := Trim(input);
    TrimIdempotent(input);
    var pre, post := TrimDecomposes(input);
    assert |phone| <= |input|;
    if ValidPhone(phone) {
      ShortValidPhone(phone);
      assert forall i | 0 <= i < |phone| :: phone[i] != ',';
    }
  }

  /** The phone-list component: the parsed entries, the text being typed and what it reported. */
  class PhoneList {
    /** The `phoneNumbers` prop the entries were last parsed from. */
    var phoneNumbers: string
    var inputList: seq<string>
    var currentInput: string
    var touched: bool
    var invalidIndexes: seq<int>
    /** Every value passed to the form's `onChange`, in order. */
    var reported: seq<string>
    /** How often `onClearError('phone_numbers')` was called. */
    var errorClears: nat

    /** The entries are tidy and the invalid indices are those of the entries. */
    ghost predicate Valid()
      reads this
    {
      AllTidy(inputList) &&
      InvalidIndexesOf(invalidIndexes, inputList) &&
      |currentInput| <= INPUT_MAX_LENGTH
    }

    /** The first render and its effects. */
    constructor (phoneNumbers: string)
      ensures Valid()
      ensures this.phoneNumbers == phoneNumbers && inputList == ParsePhones(phoneNumbers)
      ensures currentInput == "" && !touched && reported == [] && errorClears == 0
    {
      this.phoneNumbers := phoneNumbers;
      inputList := ParsePhones(phoneNumbers);
      currentInput := "";
      touched := false;
      reported := [];
      errorClears := 0;
      new;
      ParsePhonesTidy(phoneNumbers);
      invalidIndexes := InvalidIndexes(inputList);
    }

    /** A new `phoneNumbers` prop replaces the entries with its parse; the same prop changes nothing. */
    method PropChanged(value: string)
      requires Valid()
      modifies this
      ensures Valid()
      ensures value != old(phoneNumbers) ==> inputList == ParsePhones(value)
      ensures value == old(phoneNumbers) ==> inputList == old(inputList)
      ensures phoneNumbers == value && currentInput == old(currentInput) && touched == old(touched)
      ensures reported == old(reported) && errorClears == old(errorClears)
    {
      if value != phoneNumbers {
        Reparse(value);
      }
    }

    /** The effect on `phoneNumbers`: the entries become the parse of the new prop. */
    method Reparse(value: string)
      requires |currentInput| <= INPUT_MAX_LENGTH
      modifies this
      ensures Valid()
      ensures phoneNumbers == value && inputList == ParsePhones(value)
      ensures currentInput == old(currentInput) && touched == old(touched)
      ensures reported == old(reported) && errorClears == old(errorClears)
    {
      var list := ParsePhones(value);
      ParsePhonesTidy(value);
      var invalids := InvalidIndexes(list);
      phoneNumbers, inputList, invalidIndexes := value, list, invalids;
    }

    /** `handleInputChange`: the typed text, cut at the input's maximum length, and the error cleared. */
    method InputChange(value: string)
      requires Valid()
      modifies this
      ensures Valid()
      ensures currentInput == Take(value, INPUT_MAX_LENGTH) && errorClears == old(errorClears) + 1
      ensures inputList == old(inputList) && reported == old(reported) && touched == old(touched)
      ensures phoneNumbers == old(phoneNumbers)
    {
      currentInput := Take(value, INPUT_MAX_LENGTH);
      errorClears := errorClears + 1;
    }

    /**
     * `handleAdd`: a blank input does nothing. Otherwise the trimmed input is
     * appended, valid or not, the input is cleared and the form receives the
     * valid phones.
     */
    method Add()
      requires Valid()
      modifies this
      ensures Valid()
      ensures Trim(old(currentInput)) == "" ==>
        inputList == old(inputList) && currentInput == old(currentInput) && reported == old(reported) &&
        touched == old(touched) && errorClears == old(errorClears)
      ensures Trim(old(currentInput)) != "" ==>
        inputList == old(inputList) + [Trim(old(currentInput))] && currentInput == "" && touched &&
        reported == old(reported) + [Reported(inputList)] && errorClears == old(errorClears) + 1
      ensures phoneNumbers == old(phoneNumbers)
    {
      var phone := Trim(currentInput);
      if phone == "" {
        return;
      }
      AddedEntryTidy(currentInput);
      Append(phone);
    }

    /** The non-blank case of `handleAdd`, for an entry already trimmed. */
    method Append(phone: string)
      requires Valid() && Tidy(phone)
      modifies this
      ensures Valid()
      ensures inputList == old(inputList) + [phone] && currentInput == "" && touched
      ensures reported == old(reported) + [Reported(inputList)] && errorClears == old(errorClears) + 1
      ensures phoneNumbers == old(phoneNumbers)
    {
      TidyAppended(inputList, phone);
      touched, currentInput := true, "";
      Store(inputList + [phone]);
    }

    /** `handleRemove(idx)`: that entry alone goes and the form receives the valid phones. */
    method Remove(idx: int)
      requires Valid()
      modifies this
      ensures Valid()
      ensures inputList == WithoutIndex(old(inputList), idx)
      ensures 0 <= idx < |old(inputList)| ==> inputList == old(inputList)[..idx] + old(inputList)[idx + 1..]
      ensures !(0 <= idx < |old(inputList)|) ==> inputList == old(inputList)
      ensures reported == old(reported) + [Reported(inputList)] && errorClears == old(errorClears) + 1
      ensures currentInput == old(currentInput) && touched == old(touched) && phoneNumbers == old(phoneNumbers)
    {
      WithoutIndexSpec(inputList, idx);
      TidyWithoutIndex(inputList, idx);
      Store(WithoutIndex(inputList, idx));
    }

    /** The common end of adding and removing: the new entries, their invalid indices, and the report to the form. */
    method Store(list: seq<string>)
      requires AllTidy(list) && |currentInput| <= INPUT_MAX_LENGTH
      modifies this
      ensures Valid()
      ensures inputList == list && reported == old(reported) + [Reported(list)] && errorClears == old(errorClears) + 1
      ensures currentInput == old(currentInput) && touched == old(touched) && phoneNumbers == old(phoneNumbers)
    {
      var invalids := InvalidIndexes(list);
      inputList, invalidIndexes := list, invalids;
      reported := reported + [Reported(list)];
      errorClears := errorClears + 1;
    }

    /** `handleKeyDown`: Enter adds. */
    method KeyDown(key: string)
      requires Valid()
      modifies this
      ensures Valid()
      ensures key != "Enter" ==>
        inputList == old(inputList) && currentInput == old(currentInput) && reported == old(reported) &&
        touched == old(touched) && errorClears == old(errorClears)
      ensures key == "Enter" && Trim(old(currentInput)) != "" ==>
        inputList == old(inputList) + [Trim(old(currentInput))] && currentInput == "" &&
        reported == old(reported) + [Reported(inputList)]
    {
      if key == "Enter" {
        Add();
      }
    }
  }
}
