/** The positions a counting `uint8` loop hands to the servo, one per iteration. */
module Stepping {

  /** A servo position: the `uint8` the driver accepts. */
  type Byte = x: int | 0 <= x < 256

  /** Counting down from `first` to `last`, both inclusive: first, first - 1, ..., last
      (nothing when `first < last`). */
  function Descending(first: Byte, last: Byte): (r: seq<Byte>)
    ensures |r| == if first < last then 0 else first - last + 1
    ensures forall k :: 0 <= k < |r| ==> r[k] == first - k
    decreases first as int - last as int
  {
    if first < last then []
    else if first == last then [last]
    else Descending(first, last + 1) + [last]
  }

  /** Counting up from `first` to `last`, both inclusive: first, first + 1, ..., last
      (nothing when `last < first`). */
  function Ascending(first: Byte, last: Byte): (r: seq<Byte>)
    ensures |r| == if last < first then 0 else last - first + 1
    ensures forall k :: 0 <= k < |r| ==> r[k] == first + k
    decreases last as int - first as int
  {
    if last < first then []
    else if first == last then [first]
    else Ascending(first, last - 1) + [last]
  }
}
