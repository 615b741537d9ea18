/** The favourite currency pairs of the converter: an ordered list with duplicates allowed. */
module Favorites {

  /** A saved (from, to) currency pair. */
  datatype Pair = Pair(from: string, to: string)

  /**
   * The list without the element at position `index`, as `filter((_, i) => i !== index)`
   * computes it: every element whose position differs from `index` is kept, in order,
   * so an index outside the list keeps everything.
   */
  function RemoveAt<T>(list: seq<T>, index: int): (r: seq<T>)
    ensures 0 <= index < |list| ==> r == list[..index] + list[index + 1..]
    ensures !(0 <= index < |list|) ==> r == list
  {
    if list == [] then []
    else
      var rest := RemoveAt(list[1..], index - 1);
      if index == 0 then rest
      else
        assert 0 < index < |list| ==> list[1..][..index - 1] == list[1..index];
        assert list == [list[0]] + list[1..];
        [list[0]] + rest
  }

  /** Removing the pair just appended gives back the list as it was. */
  lemma AddThenRemoveLast<T>(list: seq<T>, p: T)
    ensures RemoveAt(list + [p], |list|) == list
  {
    assert (list + [p])[..|list|] == list;
  }

  /** Removing a valid position shortens the list by one and shifts the later elements down. */
  lemma RemoveAtShifts<T>(list: seq<T>, index: int, k: int)
    requires 0 <= index < |list|
    requires 0 <= k < |list| - 1
    ensures |RemoveAt(list, index)| == |list| - 1
    ensures RemoveAt(list, index)[k] == if k < index then list[k] else list[k + 1]
  {
  }

  /** Position -1 and position |list| are not in the list: removing them changes nothing. */
  lemma RemoveOutOfRange<T>(list: seq<T>)
    ensures RemoveAt(list, -1) == list
    ensures RemoveAt(list, |list|) == list
  {
  }
}
