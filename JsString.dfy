/** The few `String.prototype` methods the fetch and activate handlers use, with JavaScript semantics, over code points rather than UTF-16 code units. */
module JsString {

  /** `t` occurs in `s` starting at index `i`. */
  predicate OccursAt(s: string, t: string, i: nat)
  {
    i + |t| <= |s| && s[i..i + |t|] == t
  }

  /** `t` occurs somewhere in `s`. */
  ghost predicate Contains(s: string, t: string)
  {
    exists i: nat :: OccursAt(s, t, i)
  }

  /** `s.substring(start)` for a non-negative start: past the end it yields "". */
  function Substring(s: string, start: nat): (r: string)
    ensures start <= |s| ==> s == s[..start] + r
    ensures start >= |s| ==> r == ""
    ensures |r| == if start <= |s| then |s| - start else 0
  {
    if start <= |s| then s[start..] else ""
  }

  /** `s.startsWith(p)`. */
  predicate StartsWith(s: string, p: string)
  {
    |p| <= |s| && s[..|p|] == p
  }

  /** Search for `t` in `s` from index `from` on: the first index at or after `from`, or -1. */
  function IndexFrom(s: string, t: string, from: nat): (r: int)
    requires from <= |s|
    ensures r == -1 || (from <= r <= |s| && OccursAt(s, t, r))
    ensures r == -1 ==> forall i: nat :: from <= i ==> !OccursAt(s, t, i)
    ensures r != -1 ==> forall i: nat :: from <= i < r ==> !OccursAt(s, t, i)
    decreases |s| - from
  {
    if OccursAt(s, t, from) then from
    else if from + |t| >= |s| then -1
    else IndexFrom(s, t, from + 1)
  }

  /** `s.indexOf(t)`: the first index where `t` occurs, or -1 when it does not occur. */
  function IndexOf(s: string, t: string): (r: int)
    ensures r == -1 <==> !Contains(s, t)
    ensures r != -1 ==> 0 <= r <= |s| && OccursAt(s, t, r)
    ensures r != -1 ==> forall i: nat :: i < r ==> !OccursAt(s, t, i)
  {
    var r := IndexFrom(s, t, 0);
    assert r != -1 ==> OccursAt(s, t, r as nat);
    r
  }

  /** `s.split(t)[0]` for a non-empty separator: everything before the first occurrence of `t`. */
  function SplitHead(s: string, t: string): (r: string)
    requires t != ""
    ensures !Contains(s, t) ==> r == s
    ensures Contains(s, t) ==> |r| < |s| && s[..|r|] == r && OccursAt(s, t, |r|)
    ensures Contains(s, t) ==> forall i: nat :: i < |r| ==> !OccursAt(s, t, i)
    ensures !Contains(r, t)
  {
    var i := IndexOf(s, t);
    if i == -1 then s
    else
      var r := s[..i];
      assert forall j: nat :: OccursAt(r, t, j) ==> OccursAt(s, t, j) by {
        forall j: nat | OccursAt(r, t, j) ensures OccursAt(s, t, j) {
          assert s[j..j + |t|] == r[j..j + |t|];
        }
      }
      r
  }
}
