/** The in-place Fisher-Yates shuffle `shuffleString`. The random index the
    source draws at loop step `i` (uniform in `[0, i]`) is supplied by the
    caller as `swaps[i - 1]`. */
module Shuffle {

  /** One swap index per loop step `i = n - 1 .. 1`; none for a string of
      fewer than two characters. */
  predicate SwapsFit(n: nat, swaps: seq<nat>)
  {
    (n == 0 ==> swaps == []) && (n > 0 ==> |swaps| == n - 1)
    && forall k :: 0 <= k < |swaps| ==> swaps[k] <= k + 1
  }

  /** Exchange the elements at `i` and `j`. */
  function Swap(a: string, i: nat, j: nat): (r: string)
    requires i < |a| && j < |a|
    ensures |r| == |a|
  {
    a[i := a[j]][j := a[i]]
  }

  /** A swap keeps every character and its number of occurrences. */
  lemma SwapPermutes(a: string, i: nat, j: nat)
    requires i < |a| && j < |a|
    ensures multiset(Swap(a, i, j)) == multiset(a)
  {
    var b := a[i := a[j]];
    assert multiset(b) == multiset(a) - multiset{a[i]} + multiset{a[j]};
    assert multiset(b[j := a[i]]) == multiset(b) - multiset{b[j]} + multiset{a[i]};
  }

  /** The array contents when the loop variable of `shuffleString` reaches
      `i`: steps `|s| - 1` down to `i + 1` have each swapped position `step`
      with position `swaps[step - 1]`. */
  function ShuffledTo(s: string, swaps: seq<nat>, i: nat): (r: string)
    requires i < |s| && |swaps| == |s| - 1
    requires forall k :: 0 <= k < |swaps| ==> swaps[k] <= k + 1
    ensures |r| == |s|
    decreases |s| - i
  {
    if i == |s| - 1 then s
    else Swap(ShuffledTo(s, swaps, i + 1), i + 1, swaps[i])
  }

  /** The whole shuffle: the loop runs down to step 1 and does nothing on
      strings shorter than two. */
  function FisherYates(s: string, swaps: seq<nat>): (r: string)
    requires SwapsFit(|s|, swaps)
    ensures |r| == |s|
  {
    if |s| == 0 then s else ShuffledTo(s, swaps, 0)
  }

  /** Every intermediate state of the loop is an anagram of the input. */
  lemma {:induction false} ShuffledToPermutes(s: string, swaps: seq<nat>, i: nat)
    requires i < |s| && |swaps| == |s| - 1
    requires forall k :: 0 <= k < |swaps| ==> swaps[k] <= k + 1
    ensures multiset(ShuffledTo(s, swaps, i)) == multiset(s)
    decreases |s| - i
  {
    if i < |s| - 1 {
      var prev := ShuffledTo(s, swaps, i + 1);
      ShuffledToPermutes(s, swaps, i + 1);
      SwapPermutes(prev, i + 1, swaps[i]);
    }
  }

  /** The shuffle returns an anagram of its input, of the same length, for
      every choice of swap indices. */
  lemma FisherYatesPermutes(s: string, swaps: seq<nat>)
    requires SwapsFit(|s|, swaps)
    ensures |FisherYates(s, swaps)| == |s|
    ensures multiset(FisherYates(s, swaps)) == multiset(s)
  {
    if |s| > 0 { ShuffledToPermutes(s, swaps, 0); }
  }

  /** A string of fewer than two characters comes back unchanged, whatever the
      swap indices. */
  lemma ShortStringsUnchanged(s: string, swaps: seq<nat>)
    requires SwapsFit(|s|, swaps) && |s| < 2
    ensures FisherYates(s, swaps) == s
  {
  }

  /** When every step draws its own position, no element moves. */
  lemma {:induction false} IdentityDraws(s: string, swaps: seq<nat>, i: nat)
    requires i < |s| && |swaps| == |s| - 1
    requires forall k :: 0 <= k < |swaps| ==> swaps[k] == k + 1
    ensures ShuffledTo(s, swaps, i) == s
    decreases |s| - i
  {
    if i < |s| - 1 {
      IdentityDraws(s, swaps, i + 1);
      assert Swap(s, i + 1, swaps[i]) == s;
    }
  }

  /** `shuffleString`: copy the string into an array, swap in place from the
      last index down to 1, and join the array again. */
  method ShuffleString(s: string, swaps: seq<nat>) returns (r: string)
    requires SwapsFit(|s|, swaps)
    ensures r == FisherYates(s, swaps)
    ensures |r| == |s| && multiset(r) == multiset(s)
  {
    var arr := new char[|s|](k requires 0 <= k < |s| => s[k]);
    assert arr[..] == s;
    if arr.Length == 0 {
      return arr[..];
    }
    var i := arr.Length - 1;
    while i > 0
      invariant 0 <= i < arr.Length
      invariant arr[..] == ShuffledTo(s, swaps, i)
    {
      var j := swaps[i - 1];
      ghost var before := arr[..];
      var t := arr[i];
      arr[i] := arr[j];
      arr[j] := t;
      assert arr[..] == before[i := before[j]][j := before[i]];
      i := i - 1;
    }
    r := arr[..];
    FisherYatesPermutes(s, swaps);
  }
}
