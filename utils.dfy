/**
 * The two helpers of utils.js: `clamp`, a bound on a number, and `shuffle`,
 * a Fisher-Yates shuffle of a copy of an array.
 */
module Utils {

  /** `Math.max` on two numbers (NaN is not modelled). */
  function Max(a: real, b: real): real { if a >= b then a else b }

  /** `Math.min` on two numbers (NaN is not modelled). */
  function Min(a: real, b: real): real { if a <= b then a else b }

  /** `clamp(n, min, max) = Math.max(min, Math.min(max, n))`. */
  function Clamp(n: real, min: real, max: real): (r: real)
    ensures min <= max ==> min <= r <= max
    ensures min <= n <= max ==> r == n
    ensures max < min ==> r == min
    ensures min <= max && n < min ==> r == min
    ensures min <= max && max < n ==> r == max
  {
    Max(min, Min(max, n))
  }

  /** Clamping a clamped value changes nothing, whatever the bounds. */
  lemma ClampIdempotent(n: real, min: real, max: real)
    ensures Clamp(Clamp(n, min, max), min, max) == Clamp(n, min, max)
  {
  }

  /** A sequence of `Math.random()` draws, one per array index: each in [0, 1). */
  predicate Draws(random: seq<real>, n: int)
  {
    |random| == n && forall k :: 0 <= k < |random| ==> 0.0 <= random[k] < 1.0
  }

  lemma ScaledDrawInRange(r: real, n: real)
    requires 0.0 <= r < 1.0 && 0.0 < n
    ensures 0.0 <= r * n < n
  {
    assert (1.0 - r) * n > 0.0;
  }

  /** The index `Math.floor(Math.random() * (i + 1))` drawn at step `i`. */
  function Pick(r: real, i: nat): (j: nat)
    requires 0.0 <= r < 1.0
    ensures j <= i
  {
    ScaledDrawInRange(r, (i + 1) as real);
    (r * (i + 1) as real).Floor
  }

  /** `s` with positions `i` and `j` exchanged through a temporary. */
  function Swap<T>(s: seq<T>, i: nat, j: nat): seq<T>
    requires i < |s| && j < |s|
  {
    s[i := s[j]][j := s[i]]
  }

  /** The loop of `shuffle` from index `i` down to index 1, applied to `s`. */
  function Steps<T>(s: seq<T>, random: seq<real>, i: int): seq<T>
    requires Draws(random, |s|) && i < |s|
    decreases i
  {
    if i < 1 then s
    else Steps(Swap(s, i, Pick(random[i], i)), random, i - 1)
  }

  /** What `shuffle` returns for the array contents `s` and the given draws. */
  function Shuffled<T>(s: seq<T>, random: seq<real>): seq<T>
    requires Draws(random, |s|)
  {
    Steps(s, random, |s| - 1)
  }

  /** Each step only exchanges two elements, so the steps permute `s`. */
  lemma {:induction false} StepsPermutes<T>(s: seq<T>, random: seq<real>, i: int)
    requires Draws(random, |s|) && i < |s|
    ensures |Steps(s, random, i)| == |s|
    ensures multiset(Steps(s, random, i)) == multiset(s)
    decreases i
  {
    if i >= 1 {
      var t := Swap(s, i, Pick(random[i], i));
      assert multiset(t) == multiset(s);
      StepsPermutes(t, random, i - 1);
    }
  }

  /** The steps from `i` down never write a position above `i`. */
  lemma {:induction false} StepsKeepTail<T>(s: seq<T>, random: seq<real>, i: int)
    requires Draws(random, |s|) && i < |s|
    ensures |Steps(s, random, i)| == |s|
    ensures forall k :: i < k < |s| && 0 <= k ==> Steps(s, random, i)[k] == s[k]
    decreases i
  {
    StepsPermutes(s, random, i);
    if i >= 1 {
      var t := Swap(s, i, Pick(random[i], i));
      StepsKeepTail(t, random, i - 1);
    }
  }

  /** `shuffle` returns a permutation of its input whatever the draws. */
  lemma ShuffledPermutes<T>(s: seq<T>, random: seq<real>)
    requires Draws(random, |s|)
    ensures |Shuffled(s, random)| == |s|
    ensures multiset(Shuffled(s, random)) == multiset(s)
  {
    StepsPermutes(s, random, |s| - 1);
  }

  /** Arrays of length 0 or 1 come back unchanged: the loop body never runs. */
  lemma ShuffledShort<T>(s: seq<T>, random: seq<real>)
    requires Draws(random, |s|) && |s| <= 1
    ensures Shuffled(s, random) == s
  {
  }

  /**
   * `shuffle(array)`: copies the array and runs Fisher-Yates on the copy,
   * drawing `random[i]` at step `i`. The argument is not modified.
   */
  method Shuffle<T>(input: array<T>, random: seq<real>) returns (a: array<T>)
    requires Draws(random, input.Length)
    ensures fresh(a)
    ensures a[..] == Shuffled(input[..], random)
    ensures multiset(a[..]) == multiset(input[..])
  {
    a := new T[input.Length](k requires 0 <= k < input.Length reads input => input[k]);
    assert a[..] == input[..];
    ShuffledPermutes(input[..], random);
    var i := a.Length - 1;
    while i >= 1
      invariant -1 <= i < a.Length
      invariant Steps(a[..], random, i) == Shuffled(input[..], random)
      invariant |Shuffled(input[..], random)| == a.Length
      invariant forall k :: i < k < a.Length && 0 <= k ==> a[k] == Shuffled(input[..], random)[k]
    {
      var j := Pick(random[i], i);
      ghost var before := a[..];
      var tmp := a[i];
      a[i] := a[j];
      a[j] := tmp;
      assert a[..] == Swap(before, i, j);
      StepsKeepTail(a[..], random, i - 1);
      i := i - 1;
    }
  }
}
