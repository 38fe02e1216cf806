/** The two Python list operations the core relies on besides `append`:
    `list.remove(x)` (first occurrence) and `list.pop(i)`. */
module Sequences {

  /** Position of the first occurrence of `x` in `s`. */
  function FirstIndex<T(==)>(s: seq<T>, x: T): (i: nat)
    requires x in s
    ensures i < |s| && s[i] == x
    ensures forall k :: 0 <= k < i ==> s[k] != x
  {
    if s[0] == x then 0 else 1 + FirstIndex(s[1..], x)
  }

  /** `list.remove(x)`: scans from the front and drops the first element
      equal to `x`. (Python raises when `x` is absent; the car checks
      `x in s` first, and this version then returns `s`.) */
  function RemoveFirst<T(==)>(s: seq<T>, x: T): (r: seq<T>)
    ensures x !in s ==> r == s
    ensures x in s ==> |r| == |s| - 1
  {
    if |s| == 0 then s
    else if s[0] == x then s[1..]
    else [s[0]] + RemoveFirst(s[1..], x)
  }

  /** What `RemoveFirst` leaves: everything before the first `x` and
      everything after it, each in its original order. */
  lemma {:induction false} RemoveFirstSplits<T>(s: seq<T>, x: T)
    requires x in s
    ensures RemoveFirst(s, x) == s[..FirstIndex(s, x)] + s[FirstIndex(s, x) + 1..]
  {
    if s[0] != x {
      var tail := s[1..];
      assert s == [s[0]] + tail;
      assert x in tail;
      RemoveFirstSplits(tail, x);
      var j := FirstIndex(tail, x);
      assert FirstIndex(s, x) == j + 1;
      assert s[..j + 1] == [s[0]] + tail[..j];
      assert s[j + 2..] == tail[j + 1..];
    }
  }

  /** Removing the first occurrence takes exactly one copy of `x` out of the
      bag of elements and nothing else. */
  lemma {:induction false} RemoveFirstMultiset<T>(s: seq<T>, x: T)
    ensures x in s ==> multiset(RemoveFirst(s, x)) == multiset(s) - multiset{x}
    ensures x !in s ==> multiset(RemoveFirst(s, x)) == multiset(s)
  {
    if x in s {
      var i := FirstIndex(s, x);
      RemoveFirstSplits(s, x);
      assert s == s[..i] + [x] + s[i + 1..];
      calc {
        multiset(s);
        multiset(s[..i]) + multiset{x} + multiset(s[i + 1..]);
        multiset(RemoveFirst(s, x)) + multiset{x};
      }
    }
  }

  /** Appending an element that was absent and then removing it restores
      the original sequence. */
  lemma {:induction false} RemoveFirstAfterAppend<T>(s: seq<T>, x: T)
    requires x !in s
    ensures RemoveFirst(s + [x], x) == s
  {
    assert x in s + [x];
    var i := FirstIndex(s + [x], x);
    if i < |s| {
      assert false;
    }
    RemoveFirstSplits(s + [x], x);
    assert (s + [x])[..|s|] == s;
  }

  /** `list.pop(i)`: the list without its `i`-th element (the popped value
      itself is `s[i]`). */
  function RemoveAt<T>(s: seq<T>, i: nat): (r: seq<T>)
    requires i < |s|
    ensures |r| == |s| - 1
    ensures forall k :: 0 <= k < i ==> r[k] == s[k]
    ensures forall k :: i <= k < |r| ==> r[k] == s[k + 1]
    ensures multiset(r) + multiset{s[i]} == multiset(s)
  {
    assert s == s[..i] + [s[i]] + s[i + 1..];
    s[..i] + s[i + 1..]
  }

  /** Moving the element at `i` to the second place, behind `h`, keeps the
      same elements. */
  lemma MoveToSecondPermutation<T>(h: T, s: seq<T>, i: nat)
    requires i < |s|
    ensures multiset([h, s[i]] + RemoveAt(s, i)) == multiset([h] + s)
  {
  }
}
