/** The first-match lookup behind `find_one` and `update_one` on a collection in insertion order. */
module Lookup {
  import opened Wrappers

  /** The position of the first element whose key is `id`, or none when no element has it. */
  function FirstIndex<T>(xs: seq<T>, key: T -> string, id: string): (r: Option<nat>)
    ensures r.Some? ==> r.value < |xs| && key(xs[r.value]) == id
    ensures r.Some? ==> forall j :: 0 <= j < r.value ==> key(xs[j]) != id
    ensures r.None? ==> forall j :: 0 <= j < |xs| ==> key(xs[j]) != id
    decreases |xs|
  {
    if |xs| == 0 then None
    else if key(xs[0]) == id then Some(0)
    else match FirstIndex(xs[1..], key, id)
      case None => None
      case Some(k) => Some(k + 1)
  }

  /** Two sequences with the same keys, position by position, have their first match at the same place. */
  lemma {:induction false} SameKeysSameIndex<T>(xs: seq<T>, ys: seq<T>, key: T -> string, id: string)
    requires |xs| == |ys| && forall j :: 0 <= j < |xs| ==> key(xs[j]) == key(ys[j])
    ensures FirstIndex(xs, key, id) == FirstIndex(ys, key, id)
    decreases |xs|
  {
    if |xs| > 0 {
      SameKeysSameIndex(xs[1..], ys[1..], key, id);
    }
  }
}
