/**
 * Counting the positions of a sequence that carry a flag: the navigation dots count their
 * active dot and the gallery its current marker.
 */
module Counting {
  /** The number of `true` positions of `bs`. */
  function CountTrue(bs: seq<bool>): (c: nat)
    ensures c <= |bs|
  {
    if bs == [] then 0 else (if bs[0] then 1 else 0) + CountTrue(bs[1..])
  }

  /** A sequence true exactly at position `c` has one true position if `c` is in range, none otherwise. */
  lemma {:induction false} CountIsOneAt(bs: seq<bool>, c: int)
    requires forall k :: 0 <= k < |bs| ==> (bs[k] <==> k == c)
    ensures CountTrue(bs) == if 0 <= c < |bs| then 1 else 0
    decreases |bs|
  {
    if bs != [] {
      var rest := bs[1..];
      forall k | 0 <= k < |rest| ensures rest[k] <==> k == c - 1 {
        assert rest[k] == bs[k + 1];
      }
      CountIsOneAt(rest, c - 1);
    }
  }
}
