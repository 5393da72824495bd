/** The JavaScript array built-ins the viewer relies on, over `seq`:
    `findIndex` (and `find`, which is `findIndex` followed by a read) and
    `slice` with its clamping of out-of-range and negative bounds. */
module Arrays {

  /** `s.findIndex(p)`: the first position whose element satisfies `p`, or -1. */
  function FindIndex<T>(s: seq<T>, p: T -> bool): (i: int)
    ensures -1 <= i < |s|
    ensures i >= 0 ==> p(s[i]) && forall j :: 0 <= j < i ==> !p(s[j])
    ensures i < 0 <==> forall j :: 0 <= j < |s| ==> !p(s[j])
  {
    if s == [] then -1
    else if p(s[0]) then 0
    else
      var k := FindIndex(s[1..], p);
      if k < 0 then -1 else k + 1
  }

  /** How `slice` turns a bound into a position of a sequence of length
      `len`: a negative bound counts from the end, and the result is clamped
      to `[0, len]`. */
  function RelativeIndex(i: int, len: nat): (r: nat)
    ensures r <= len
    ensures 0 <= i ==> r == if i <= len then i else len
  {
    if i < 0 then (if len + i < 0 then 0 else len + i)
    else if i > len then len
    else i
  }

  /** `s.slice(begin, end)`. */
  function Slice<T>(s: seq<T>, begin: int, end: int): seq<T> {
    var b := RelativeIndex(begin, |s|);
    var e := RelativeIndex(end, |s|);
    if b < e then s[b..e] else []
  }
}
