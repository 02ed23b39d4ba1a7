/** Small shared definitions: an optional value and first-occurrence search. */
module Util {

  /** A value that may be absent; stands for Ruby's nil and for an empty error slot. */
  datatype Option<+T> = None | Some(value: T)

  /** The position of the first occurrence of `x` in `s`, or `|s|` when there is none. */
  function FirstIndex<T(==)>(s: seq<T>, x: T): (k: nat)
    ensures k <= |s|
    ensures k < |s| ==> s[k] == x
    ensures forall j :: 0 <= j < k ==> s[j] != x
    ensures x in s <==> k < |s|
  {
    if s == [] then 0
    else if s[0] == x then 0
    else 1 + FirstIndex(s[1..], x)
  }

  /** An occurrence at `k` with none before it is the first occurrence. */
  lemma FirstIndexAt<T>(s: seq<T>, x: T, k: nat)
    requires k < |s| && s[k] == x
    requires forall j :: 0 <= j < k ==> s[j] != x
    ensures FirstIndex(s, x) == k
  {
  }

  /** The first occurrence in a concatenation is in the first part when it can be, else in the second. */
  lemma {:induction false} FirstIndexAppend<T>(a: seq<T>, b: seq<T>, x: T)
    ensures FirstIndex(a + b, x) == if x in a then FirstIndex(a, x) else |a| + FirstIndex(b, x)
  {
    if a == [] {
      assert a + b == b;
    } else {
      assert (a + b)[0] == a[0];
      assert (a + b)[1..] == a[1..] + b;
      if a[0] != x {
        assert a == [a[0]] + a[1..];
        assert x in a <==> x in a[1..];
        FirstIndexAppend(a[1..], b, x);
      }
    }
  }

  lemma FirstIndexInFront<T>(a: seq<T>, b: seq<T>, x: T)
    requires x in a
    ensures FirstIndex(a + b, x) == FirstIndex(a, x)
  {
    FirstIndexAppend(a, b, x);
  }

  lemma FirstIndexInMiddle<T>(a: seq<T>, b: seq<T>, c: seq<T>, x: T)
    requires x !in a && x in b
    ensures FirstIndex(a + b + c, x) == |a| + FirstIndex(b, x)
  {
    FirstIndexAppend(a + b, c, x);
    FirstIndexAppend(a, b, x);
  }

  /** Two adjacent elements that do not occur earlier are first found where they stand. */
  lemma {:induction false} FirstIndexAdjacent<T>(a: seq<T>, x: T, y: T, c: seq<T>, d: seq<T>)
    requires x !in a && y !in a && x != y
    ensures FirstIndex(a + [x] + [y] + c + d, x) == |a|
    ensures FirstIndex(a + [x] + [y] + c + d, y) == |a| + 1
  {
    var s := a + [x] + [y] + c + d;
    assert s[|a|] == x && s[|a| + 1] == y;
    assert forall j :: 0 <= j < |a| ==> s[j] == a[j];
    FirstIndexAt(s, x, |a|);
    FirstIndexAt(s, y, |a| + 1);
  }

  /** In `a + [x] + [y]`, where `y` does not occur earlier, `x` is first found before `y`. */
  lemma {:induction false} FirstIndexBeforeLast<T>(a: seq<T>, x: T, y: T)
    requires y !in a && x != y
    ensures FirstIndex(a + [x] + [y], x) <= |a|
    ensures FirstIndex(a + [x] + [y], y) == |a| + 1
  {
    var s := a + [x] + [y];
    assert s[|a|] == x && s[|a| + 1] == y;
    assert forall j :: 0 <= j < |a| ==> s[j] == a[j];
    FirstIndexAt(s, y, |a| + 1);
  }

  lemma AppendAssoc<T>(a: seq<T>, b: seq<T>, c: seq<T>)
    ensures a + b + c == a + (b + c)
  {
  }
}
