/** Sequence operations shared by several components. */
module Lists {

  /** `list.filter((_, i) => i !== index)`, walking the list with the index of its head. */
  function WithoutIndex<T>(list: seq<T>, index: int): seq<T>
    decreases |list|
  {
    if |list| == 0 then []
    else (if index == 0 then [] else [list[0]]) + WithoutIndex(list[1..], index - 1)
  }

  /** Removing index `index` deletes exactly that element; an index outside the list removes nothing. */
  lemma {:induction false} WithoutIndexSpec<T>(list: seq<T>, index: int)
    ensures 0 <= index < |list| ==> WithoutIndex(list, index) == list[..index] + list[index + 1..]
    ensures !(0 <= index < |list|) ==> WithoutIndex(list, index) == list
    decreases |list|
  {
    if |list| > 0 {
      var rest := WithoutIndex(list[1..], index - 1);
      WithoutIndexSpec(list[1..], index - 1);
      if index == 0 {
        assert WithoutIndex(list, index) == rest == list[1..];
        assert list[..0] + list[1..] == list[1..];
      } else {
        assert WithoutIndex(list, index) == [list[0]] + rest;
        if 0 < index < |list| {
          ConsSplice(list, index);
        } else {
          assert rest == list[1..];
          assert list == [list[0]] + list[1..];
        }
      }
    }
  }

  /** The list algebra of deleting a later element behind the head. */
  lemma ConsSplice<T>(list: seq<T>, index: int)
    requires 0 < index < |list|
    ensures [list[0]] + (list[1..][..index - 1] + list[1..][index..]) == list[..index] + list[index + 1..]
  {
    assert list[..index] == [list[0]] + list[1..][..index - 1];
    assert list[index + 1..] == list[1..][index..];
  }
}
