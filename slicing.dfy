/** Python's slice `s[start:stop]` with its bound normalisation: a negative
    bound counts from the end, and every bound is clamped into `[0, len(s)]`. */
module Slicing {

  function Min(a: int, b: int): int { if a <= b then a else b }

  function Max(a: int, b: int): int { if a >= b then a else b }

  /** Where the slice bound `i` falls in a sequence of length `n`. */
  function Bound(i: int, n: nat): (b: nat)
    ensures b <= n
    ensures 0 <= i ==> b == Min(i, n)
    ensures i < 0 ==> b == Max(n + i, 0)
  {
    if i < 0 then (if n + i < 0 then 0 else n + i)
    else if i > n then n
    else i
  }

  /** `s[start:stop]`; empty whenever the normalised start is not before the normalised stop. */
  function Slice<T>(s: seq<T>, start: int, stop: int): seq<T>
  {
    var lo, hi := Bound(start, |s|), Bound(stop, |s|);
    if lo < hi then s[lo..hi] else []
  }

  /** For a non-negative start and length, a slice holds the elements from
      `start` on, as many as asked for and as the sequence still has. */
  lemma SliceWindow<T>(s: seq<T>, start: int, count: int)
    requires 0 <= start && 0 <= count
    ensures var page := Slice(s, start, start + count);
      && |page| == Min(count, Max(|s| - start, 0))
      && forall k :: 0 <= k < |page| ==> page[k] == s[start + k]
  {
  }

  /** Two consecutive pages neither overlap nor leave a gap: together they are
      the page that spans both. */
  lemma {:induction false} AdjacentSlices<T>(s: seq<T>, start: int, n: int, m: int)
    requires 0 <= start && 0 <= n && 0 <= m
    ensures Slice(s, start, start + n) + Slice(s, start + n, start + n + m)
         == Slice(s, start, start + n + m)
  {
    var a, b, c := Bound(start, |s|), Bound(start + n, |s|), Bound(start + n + m, |s|);
    assert a <= b <= c;
    if a < b && b < c {
      assert s[a..b] + s[b..c] == s[a..c];
    }
  }

  /** A start at or past the end yields nothing. */
  lemma SliceFromPastEnd<T>(s: seq<T>, start: int, stop: int)
    requires start >= |s|
    ensures Slice(s, start, stop) == []
  {
  }

  /** `s[-k:]` for `k > 0` is the last `k` elements, or all of `s` if it is shorter. */
  lemma LastElements<T>(s: seq<T>, k: int)
    requires k > 0
    ensures Slice(s, -k, |s|) == s[|s| - Min(k, |s|)..]
  {
  }

  /** `s[-0:]` is `s[0:]`: a count of zero takes everything. */
  lemma MinusZeroTakesAll<T>(s: seq<T>)
    ensures Slice(s, -0, |s|) == s
  {
  }

  /** A slice holds only elements of the sequence it was cut from. */
  lemma SliceElements<T>(s: seq<T>, start: int, stop: int)
    ensures forall x :: x in Slice(s, start, stop) ==> x in s
  {
    var lo, hi := Bound(start, |s|), Bound(stop, |s|);
    if lo < hi {
      forall x | x in s[lo..hi] ensures x in s {
        var k :| lo <= k < hi && s[k] == x;
      }
    }
  }

  /** `s[:k]` is the first `k` elements, or all of `s` if it is shorter; a
      negative `k` drops the last `-k` elements. */
  lemma FirstElements<T>(s: seq<T>, k: int)
    ensures Slice(s, 0, k) == s[..Bound(k, |s|)]
    ensures 0 <= k ==> |Slice(s, 0, k)| == Min(k, |s|)
    ensures k < 0 ==> |Slice(s, 0, k)| == Max(|s| + k, 0)
  {
  }
}
