/** The few JavaScript runtime notions the application relies on:
    values that may be null or undefined, the truthiness test on strings,
    and Array.prototype.find over an array of values. */
module Js {

  /** A value that may be missing. JavaScript's `null` and `undefined` are
      both read as None: the application never tells them apart (it tests
      them with `!x`, `x ? … : …` and `?.`). */
  datatype Option<+T> = None | Some(value: T)

  /** `!!s` for a nullable string: null, undefined and "" are falsy. */
  predicate Truthy(s: Option<string>) {
    s.Some? && s.value != ""
  }

  /** i is the index of the first element of s that satisfies p. */
  ghost predicate IsFirst<T>(s: seq<T>, p: T -> bool, i: int) {
    0 <= i < |s| && p(s[i]) && forall j :: 0 <= j < i ==> !p(s[j])
  }

  /** No element of s satisfies p. */
  ghost predicate NoneSatisfy<T>(s: seq<T>, p: T -> bool) {
    forall i :: 0 <= i < |s| ==> !p(s[i])
  }

  /** Array.prototype.find: the first element that satisfies p, scanning
      from the front, or undefined when there is none. */
  function Find<T>(s: seq<T>, p: T -> bool): (r: Option<T>)
    ensures r.None? <==> NoneSatisfy(s, p)
    ensures r.Some? ==> exists i :: IsFirst(s, p, i) && s[i] == r.value
  {
    if |s| == 0 then None
    else if p(s[0]) then
      assert IsFirst(s, p, 0);
      Some(s[0])
    else
      var r := Find(s[1..], p);
      ShiftFirst(s, p, r);
      r
  }

  /** What Find promises about the tail of s carries over to s itself when
      the head of s does not satisfy p. */
  lemma ShiftFirst<T>(s: seq<T>, p: T -> bool, r: Option<T>)
    requires |s| > 0 && !p(s[0])
    requires r.None? <==> NoneSatisfy(s[1..], p)
    requires r.Some? ==> exists i :: IsFirst(s[1..], p, i) && s[1..][i] == r.value
    ensures r.None? <==> NoneSatisfy(s, p)
    ensures r.Some? ==> exists i :: IsFirst(s, p, i) && s[i] == r.value
  {
    if r.Some? {
      var i :| IsFirst(s[1..], p, i) && s[1..][i] == r.value;
      assert IsFirst(s, p, i + 1);
    } else {
      forall i | 0 <= i < |s| ensures !p(s[i]) {
        if i > 0 { assert s[i] == s[1..][i - 1]; }
      }
    }
  }

  /** There is only one first match. */
  lemma FirstIsUnique<T>(s: seq<T>, p: T -> bool, i: int, k: int)
    requires IsFirst(s, p, i) && IsFirst(s, p, k)
    ensures i == k
  {
  }

  /** Find returns exactly the element at the first matching index. */
  lemma FindReturnsFirst<T>(s: seq<T>, p: T -> bool, i: int)
    requires IsFirst(s, p, i)
    ensures Find(s, p) == Some(s[i])
  {
    var r := Find(s, p);
    assert !NoneSatisfy(s, p);
    var k :| IsFirst(s, p, k) && s[k] == r.value;
    FirstIsUnique(s, p, i, k);
  }
}
