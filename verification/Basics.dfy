/** Small vocabulary shared by the models: optional values and duplicate-free lists. */
module Basics {

  datatype Option<+T> = None | Some(value: T)

  ghost predicate NoDup<T>(s: seq<T>) {
    forall i, j :: 0 <= i < j < |s| ==> s[i] != s[j]
  }

  /** Drops the first occurrence of x, keeping the order of the rest. */
  function Remove<T(==)>(s: seq<T>, x: T): seq<T> {
    if s == [] then []
    else if s[0] == x then s[1..]
    else [s[0]] + Remove(s[1..], x)
  }

  /** On a duplicate-free list Remove deletes exactly x. */
  lemma {:induction false} RemoveIsDeletion<T>(s: seq<T>, x: T)
    requires NoDup(s)
    ensures NoDup(Remove(s, x))
    ensures forall y :: y in Remove(s, x) <==> y in s && y != x
  {
    if s != [] {
      var rest := s[1..];
      RemoveIsDeletion(rest, x);
      assert s == [s[0]] + rest;
      assert s[0] !in rest by {
        assert forall k :: 0 <= k < |rest| ==> rest[k] == s[k + 1];
      }
      if s[0] != x {
        assert Remove(s, x) == [s[0]] + Remove(rest, x);
      }
    }
  }

  /** Appending a new element keeps a list duplicate-free. */
  lemma AppendNoDup<T>(s: seq<T>, x: T)
    requires NoDup(s) && x !in s
    ensures NoDup(s + [x])
  {
  }

  /** The tail of a duplicate-free list is duplicate-free and misses the head. */
  lemma TailNoDup<T>(s: seq<T>)
    requires NoDup(s) && s != []
    ensures NoDup(s[1..]) && s[0] !in s[1..]
    ensures forall y :: y in s <==> y == s[0] || y in s[1..]
  {
    assert s == [s[0]] + s[1..];
    assert forall k :: 0 <= k < |s[1..]| ==> s[1..][k] == s[k + 1];
  }
}
