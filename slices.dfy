/** Python's slicing of lists by an integer start, `s[start:]`. */
module Slices {

  function Min(a: int, b: int): int
  {
    if a <= b then a else b
  }

  /** `s[start:]`: a negative start counts from the end and is clamped at
      the front of the list, a non-negative one is clamped at its end. The
      result is always a suffix of `s`; `s[-k:]` with `k >= 1` keeps the last
      `k` elements (all of them when there are fewer), and `s[-0:]`, which
      is `s[0:]`, keeps the whole list. */
  function SliceFrom<T>(s: seq<T>, start: int): (r: seq<T>)
    ensures |r| <= |s| && r == s[|s| - |r|..]
    ensures start < 0 ==> |r| == Min(-start, |s|)
    ensures start >= 0 ==> |r| == |s| - Min(start, |s|)
  {
    if start < 0 then
      s[if |s| + start < 0 then 0 else |s| + start..]
    else
      s[if start > |s| then |s| else start..]
  }

  /** Only the last `k` elements matter to `s[-k:]`: anything placed in
      front of at least `k` elements does not change it. */
  lemma SliceFromIgnoresOlder<T>(older: seq<T>, recent: seq<T>, k: int)
    requires 1 <= k <= |recent|
    ensures SliceFrom(older + recent, -k) == SliceFrom(recent, -k)
  {
    assert (older + recent)[|older + recent| - k..] == recent[|recent| - k..];
  }
}
