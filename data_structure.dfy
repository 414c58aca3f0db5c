/**
  The broadcasting helper `match_long_repeat` that the basis-change node imports from the host's
  `data_structure` module. Its body is not part of this model; it is modelled as: every list is
  padded to the length of the longest one by repeating its last element. A list with no elements
  has no last element to repeat and stays empty, so a later zip yields nothing.
 */
module DataStructure {

  /** Element i of s after padding: s[i] inside s, the last element past its end. */
  function Broadcast<T>(s: seq<T>, i: nat): T
    requires |s| > 0
  {
    s[if i < |s| then i else |s| - 1]
  }

  /** The length of the longest list (0 for no lists). */
  function MaxLength<T>(lists: seq<seq<T>>): (n: nat)
    ensures forall k :: 0 <= k < |lists| ==> |lists[k]| <= n
    ensures |lists| == 0 ==> n == 0
    ensures |lists| > 0 ==> exists k :: 0 <= k < |lists| && |lists[k]| == n
    decreases |lists|
  {
    if |lists| == 0 then 0
    else
      var rest := MaxLength(lists[1..]);
      assert forall k :: 1 <= k < |lists| ==> lists[k] == lists[1..][k - 1];
      if |lists[0]| >= rest then |lists[0]| else rest
  }

  /** s padded to length n by repeating its last element; an empty s stays empty. */
  function RepeatLast<T>(s: seq<T>, n: nat): (r: seq<T>)
    requires |s| <= n
    ensures |s| == 0 ==> r == []
    ensures |s| > 0 ==> |r| == n && r[..|s|] == s
    ensures |s| > 0 ==> forall i :: 0 <= i < n ==> r[i] == Broadcast(s, i)
  {
    if |s| == 0 then [] else s + seq(n - |s|, _ => s[|s| - 1])
  }

  /** `match_long_repeat(lists)`: every non-empty list is broadcast to the longest length. */
  function MatchLongRepeat<T>(lists: seq<seq<T>>): (r: seq<seq<T>>)
    ensures |r| == |lists|
    ensures forall k :: 0 <= k < |lists| && |lists[k]| == 0 ==> r[k] == []
    ensures forall k :: 0 <= k < |lists| && |lists[k]| > 0 ==>
              |r[k]| == MaxLength(lists) &&
              forall i :: 0 <= i < MaxLength(lists) ==> r[k][i] == Broadcast(lists[k], i)
    ensures forall k :: 0 <= k < |lists| && |lists[k]| == MaxLength(lists) ==> r[k] == lists[k]
  {
    var n := MaxLength(lists);
    seq(|lists|, k requires 0 <= k < |lists| => RepeatLast(lists[k], n))
  }
}
