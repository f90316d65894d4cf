/** `Array.prototype.slice`, the windowing step every paginated feed ends with. */
module JsArray {

  /** How `slice` resolves one bound against a length: a negative bound counts back from
      the end, and the result is clamped to `[0, len]`. */
  function ResolveBound(k: int, len: nat): (r: nat)
    ensures r <= len
    ensures 0 <= k <= len ==> r == k
    ensures len <= k ==> r == len
    ensures k < 0 && 0 <= len + k ==> r == len + k
    ensures len + k < 0 ==> r == 0
  {
    if k < 0 then (if len + k < 0 then 0 else len + k)
    else if k < len then k
    else len
  }

  /** `s.slice(start, end)`. */
  function Slice<T>(s: seq<T>, start: int, end: int): (r: seq<T>)
    ensures |r| <= |s|
    ensures 0 <= start <= end <= |s| ==> r == s[start..end]
    ensures 0 <= end <= start ==> r == []
  {
    var from := ResolveBound(start, |s|);
    var to := ResolveBound(end, |s|);
    if from < to then s[from..to] else []
  }

  /** The window `[skip, skip + limit)` of `s` for non-negative bounds, clamped to `s`. */
  function Window<T>(s: seq<T>, skip: nat, limit: nat): (r: seq<T>)
    ensures |r| <= limit
    ensures |r| == if skip >= |s| then 0 else if skip + limit <= |s| then limit else |s| - skip
    ensures forall k :: 0 <= k < |r| ==> r[k] == s[skip + k]
  {
    if skip >= |s| then []
    else if skip + limit <= |s| then s[skip..skip + limit]
    else s[skip..]
  }

  /** With non-negative bounds, `slice(skip, skip + limit)` is the clamped window. */
  lemma SliceIsWindow<T>(s: seq<T>, skip: int, limit: int)
    requires 0 <= skip && 0 <= limit
    ensures Slice(s, skip, skip + limit) == Window(s, skip, limit)
  {
  }

  /** Appending after a prefix that already covers `skip + limit` leaves the window unchanged:
      the reason an early return in the campaign feed is safe. */
  lemma SliceOfPrefix<T>(a: seq<T>, b: seq<T>, skip: int, limit: int)
    requires 0 <= skip && 0 <= limit && skip + limit <= |a|
    ensures Slice(a + b, skip, skip + limit) == Slice(a, skip, skip + limit)
  {
    assert (a + b)[skip..skip + limit] == a[skip..skip + limit];
  }
}
