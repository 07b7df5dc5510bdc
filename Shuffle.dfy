/** `shuffleInPlace`: a Fisher-Yates pass over an array. The random index the
    source draws at each step (`Math.floor(Math.random() * (i + 1))`) is
    supplied by the caller as a sequence of draws. */
module Shuffle {

  /** How many random draws a pass over `n` elements takes: one for each
      `i` from `n - 1` down to `1`. */
  function DrawCount(n: nat): nat
  {
    if n == 0 then 0 else n - 1
  }

  /** `js` can stand for the draws of a pass over `n` elements: the `k`-th
      draw is made with `i == n - 1 - k`, and lies in `[0, i]`. */
  predicate ValidDraws(js: seq<nat>, n: nat)
  {
    |js| == DrawCount(n) && forall k :: 0 <= k < |js| ==> js[k] <= n - 1 - k
  }

  /** `js` can stand for the remaining draws once the loop counter is `i`. */
  predicate StepDraws(js: seq<nat>, i: nat)
  {
    |js| == i && forall k :: 0 <= k < i ==> js[k] <= i - k
  }

  /** After one step the remaining draws are again well formed. */
  lemma StepDrawsTail(js: seq<nat>, i: nat)
    requires i > 0 && StepDraws(js, i)
    ensures js[0] <= i && StepDraws(js[1..], i - 1)
  {
    forall k | 0 <= k < i - 1
      ensures js[1..][k] <= i - 1 - k
    {
      assert js[1..][k] == js[k + 1];
    }
  }

  /** The destructuring swap `[arr[i], arr[j]] = [arr[j], arr[i]]`. */
  function Swap<T>(s: seq<T>, i: nat, j: nat): (r: seq<T>)
    requires i < |s| && j < |s|
    ensures |r| == |s| && r[i] == s[j] && r[j] == s[i]
    ensures forall k :: 0 <= k < |s| && k != i && k != j ==> r[k] == s[k]
  {
    s[i := s[j]][j := s[i]]
  }

  /** The rest of the pass once the loop counter has reached `i`: the steps
      `i, i - 1, ..., 1`, the step at `i` using the draw `js[0]`. */
  function ShuffleFrom<T>(s: seq<T>, i: nat, js: seq<nat>): (r: seq<T>)
    requires i < |s| || i == 0
    requires StepDraws(js, i)
    ensures |r| == |s|
    decreases i
  {
    if i == 0 then s
    else
      StepDrawsTail(js, i);
      ShuffleFrom(Swap(s, i, js[0]), i - 1, js[1..])
  }

  /** The whole pass over `s`. Whatever the draws, it keeps the length and
      the multiset of elements: the result is a permutation of the input. */
  function Shuffled<T>(s: seq<T>, js: seq<nat>): (r: seq<T>)
    requires ValidDraws(js, |s|)
    ensures |r| == |s| && multiset(r) == multiset(s)
  {
    assert StepDraws(js, DrawCount(|s|));
    ShuffleFromIsPermutation(s, DrawCount(|s|), js);
    ShuffleFrom(s, DrawCount(|s|), js)
  }

  lemma {:induction false} ShuffleFromIsPermutation<T>(s: seq<T>, i: nat, js: seq<nat>)
    requires i < |s| || i == 0
    requires StepDraws(js, i)
    ensures multiset(ShuffleFrom(s, i, js)) == multiset(s)
    decreases i
  {
    if i > 0 {
      StepDrawsTail(js, i);
      ShuffleFromIsPermutation(Swap(s, i, js[0]), i - 1, js[1..]);
    }
  }

  /** One step of the pass, unfolded. */
  lemma ShuffleFromStep<T>(s: seq<T>, i: nat, js: seq<nat>)
    requires 0 < i < |s| && StepDraws(js, i)
    ensures js[0] <= i && StepDraws(js[1..], i - 1)
    ensures ShuffleFrom(s, i, js) == ShuffleFrom(Swap(s, i, js[0]), i - 1, js[1..])
  {
    StepDrawsTail(js, i);
  }

  /** Exchanges two cells of the array. */
  method SwapCells<T>(a: array<T>, i: nat, j: nat)
    requires i < a.Length && j < a.Length
    modifies a
    ensures a[..] == Swap(old(a[..]), i, j)
  {
    var tmp := a[i];
    a[i] := a[j];
    a[j] := tmp;
  }

  /** The loop of `shuffleInPlace`, run on the array in place. */
  method ShuffleInPlace<T>(a: array<T>, js: seq<nat>)
    requires ValidDraws(js, a.Length)
    modifies a
    ensures a[..] == Shuffled(old(a[..]), js)
  {
    ghost var goal := Shuffled(a[..], js);
    if a.Length == 0 {
      return;
    }
    var i := a.Length - 1;
    ghost var rest := js;
    assert StepDraws(rest, i);
    while i > 0
      invariant 0 <= i < a.Length
      invariant StepDraws(rest, i) && rest == js[a.Length - 1 - i..]
      invariant ShuffleFrom(a[..], i, rest) == goal
      decreases i
    {
      ShuffleFromStep(a[..], i, rest);
      var j := js[a.Length - 1 - i];
      SwapCells(a, i, j);
      rest := rest[1..];
      i := i - 1;
    }
  }
}
