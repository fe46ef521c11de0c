/** Values shared by the components of the model. */
module Common {
  datatype Option<+T> = None | Some(value: T)

  /** The outcome of a handler: a value, or the HTTP status it fails with. */
  datatype Result<+T> = Ok(value: T) | Fail(status: nat)

  type Byte = x: nat | x < 256

  type Bytes = seq<Byte>

  /** A smaller set has fewer elements. */
  lemma SubsetSize<T>(small: set<T>, large: set<T>)
    requires small <= large
    ensures |small| <= |large|
    ensures small != large ==> |small| < |large|
  {
    assert large == small + (large - small);
  }

  function Members<T>(items: seq<T>): set<T> {
    set x | x in items
  }

  /** A list without repetitions has as many members as it is long. */
  lemma {:induction false} DistinctMembers<T>(items: seq<T>)
    requires forall i, j :: 0 <= i < j < |items| ==> items[i] != items[j]
    ensures |Members(items)| == |items|
    decreases |items|
  {
    if |items| > 0 {
      DistinctMembers(items[1..]);
      assert Members(items) == {items[0]} + Members(items[1..]);
    }
  }
}
