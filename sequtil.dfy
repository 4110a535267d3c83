/** Searching and splicing sequences, as `Y.Array.indexOf` and
    `Array.prototype.splice(index, 1)` do. */
module SeqUtil {

  /** The first position of `x` in `s`, or -1 when it does not occur. */
  function FirstIndex<T(==)>(s: seq<T>, x: T): (i: int)
    ensures -1 <= i < |s|
    ensures i == -1 <==> x !in s
    ensures 0 <= i ==> s[i] == x && x !in s[..i]
  {
    if |s| == 0 then -1
    else if s[0] == x then 0
    else
      var j := FirstIndex(s[1..], x);
      if j < 0 then -1
      else
        assert s[..j + 1] == [s[0]] + s[1..][..j];
        j + 1
  }

  /** Only one position can be the first occurrence. */
  lemma FirstIndexUnique<T>(s: seq<T>, x: T, i: int)
    requires 0 <= i < |s| && s[i] == x && x !in s[..i]
    ensures FirstIndex(s, x) == i
  {
  }

  /** `s` with its first occurrence of `x` spliced out; `s` itself when `x`
      does not occur. */
  function RemoveFirst<T(==)>(s: seq<T>, x: T): (r: seq<T>)
    ensures x !in s ==> r == s
    ensures x in s ==> |r| == |s| - 1
    ensures multiset(r) == multiset(s) - multiset{x}
  {
    var i := FirstIndex(s, x);
    if i < 0 then s
    else
      assert s == s[..i] + [x] + s[i + 1..];
      s[..i] + s[i + 1..]
  }

  /** `Y.Array.indexOf(a, x)`: a linear scan from the front. */
  method IndexOf<T(==)>(a: seq<T>, x: T) returns (i: int)
    ensures i == FirstIndex(a, x)
  {
    i := 0;
    while i < |a|
      invariant 0 <= i <= |a|
      invariant x !in a[..i]
    {
      if a[i] == x {
        FirstIndexUnique(a, x, i);
        return;
      }
      assert a[..i + 1] == a[..i] + [a[i]];
      i := i + 1;
    }
    assert a[..i] == a;
    i := -1;
  }

  /** `k` copies of `x`. */
  function Repeat<T>(x: T, k: nat): (r: seq<T>)
    ensures |r| == k && forall i :: 0 <= i < k ==> r[i] == x
    decreases k
  {
    if k == 0 then [] else Repeat(x, k - 1) + [x]
  }

  /** Regrouping a concatenation, for proofs that build a sequence piece
      by piece. */
  lemma Assoc<T>(a: seq<T>, b: seq<T>, c: seq<T>)
    ensures (a + b) + c == a + (b + c)
  {
  }
}
