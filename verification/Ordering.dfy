/** The library sort the agent relies on: stable, by a caller-supplied order. */
module Ordering {
  ghost predicate TotalPreorder<T(!new)>(le: (T, T) -> bool) {
    && (forall x, y :: le(x, y) || le(y, x))
    && (forall x, y, z :: le(x, y) && le(y, z) ==> le(x, z))
  }

  ghost predicate SortedBy<T(!new)>(s: seq<T>, le: (T, T) -> bool) {
    forall i, j :: 0 <= i < j < |s| ==> le(s[i], s[j])
  }

  // x came before every element of s in the original list, so it goes before its equals.
  function Insert<T>(x: T, s: seq<T>, le: (T, T) -> bool): seq<T> {
    if s == [] || le(x, s[0]) then [x] + s else [s[0]] + Insert(x, s[1..], le)
  }

  function Sort<T>(s: seq<T>, le: (T, T) -> bool): seq<T> {
    if s == [] then [] else Insert(s[0], Sort(s[1..], le), le)
  }

  lemma {:induction false} InsertPermutes<T>(x: T, s: seq<T>, le: (T, T) -> bool)
    ensures multiset(Insert(x, s, le)) == multiset{x} + multiset(s)
  {
    if s != [] && !le(x, s[0]) {
      InsertPermutes(x, s[1..], le);
      assert s == [s[0]] + s[1..];
    }
  }

  lemma {:induction false} SortPermutes<T>(s: seq<T>, le: (T, T) -> bool)
    ensures multiset(Sort(s, le)) == multiset(s)
  {
    if s != [] {
      SortPermutes(s[1..], le);
      InsertPermutes(s[0], Sort(s[1..], le), le);
      assert s == [s[0]] + s[1..];
    }
  }

  lemma SortSameElements<T>(s: seq<T>, le: (T, T) -> bool)
    ensures |Sort(s, le)| == |s|
    ensures forall x :: x in Sort(s, le) <==> x in s
  {
    SortPermutes(s, le);
    assert |multiset(Sort(s, le))| == |multiset(s)|;
    forall x ensures x in Sort(s, le) <==> x in s {
      assert x in Sort(s, le) <==> x in multiset(Sort(s, le));
    }
  }

  lemma {:induction false} InsertSorted<T(!new)>(x: T, s: seq<T>, le: (T, T) -> bool)
    requires TotalPreorder(le) && SortedBy(s, le)
    ensures SortedBy(Insert(x, s, le), le)
  {
    if s != [] && !le(x, s[0]) {
      InsertSorted(x, s[1..], le);
      InsertPermutes(x, s[1..], le);
      var rest := Insert(x, s[1..], le);
      forall j | 0 <= j < |rest| ensures le(s[0], rest[j]) {
        assert rest[j] in multiset(rest);
        assert rest[j] == x || rest[j] in s[1..];
      }
    }
  }

  lemma {:induction false} SortSorted<T(!new)>(s: seq<T>, le: (T, T) -> bool)
    requires TotalPreorder(le)
    ensures SortedBy(Sort(s, le), le)
  {
    if s != [] {
      SortSorted(s[1..], le);
      InsertSorted(s[0], Sort(s[1..], le), le);
    }
  }

  // Stability, in the form the account merge needs: a tail whose elements are all
  // equal and not below anything before them keeps its place and its order.
  lemma {:induction false} SortKeepsEqualTail<T>(front: seq<T>, tail: seq<T>, le: (T, T) -> bool)
    requires forall x, y :: x in front + tail && y in tail ==> le(x, y)
    ensures Sort(front + tail, le) == Sort(front, le) + tail
  {
    if front == [] {
      assert front + tail == tail;
      SortEquals(tail, le);
    } else {
      var rest := front[1..];
      assert front + tail == [front[0]] + (rest + tail);
      forall x, y | x in rest + tail && y in tail ensures le(x, y) {
        assert x in front + tail;
      }
      SortKeepsEqualTail(rest, tail, le);
      InsertBeforeTail(front[0], Sort(rest, le), tail, le);
    }
  }

  lemma {:induction false} InsertBeforeTail<T>(x: T, s: seq<T>, tail: seq<T>, le: (T, T) -> bool)
    requires forall y :: y in tail ==> le(x, y)
    ensures Insert(x, s + tail, le) == Insert(x, s, le) + tail
  {
    if s == [] {
      assert s + tail == tail;
    } else if le(x, s[0]) {
      assert (s + tail)[0] == s[0];
      assert [x] + (s + tail) == [x] + s + tail;
    } else {
      InsertBeforeTail(x, s[1..], tail, le);
      assert (s + tail)[1..] == s[1..] + tail;
    }
  }

  lemma {:induction false} SortEquals<T>(s: seq<T>, le: (T, T) -> bool)
    requires forall x, y :: x in s && y in s ==> le(x, y)
    ensures Sort(s, le) == s
  {
    if s != [] {
      SortEquals(s[1..], le);
    }
  }

  // A strictly increasing list is determined by its elements.
  lemma {:induction false} StrictlySortedUnique<T(!new)>(a: seq<T>, b: seq<T>, rank: T -> int)
    requires forall i, j :: 0 <= i < j < |a| ==> rank(a[i]) < rank(a[j])
    requires forall i, j :: 0 <= i < j < |b| ==> rank(b[i]) < rank(b[j])
    requires |a| == |b| && forall x :: x in a <==> x in b
    ensures a == b
  {
    if a != [] {
      assert a[0] in b;
      assert b[0] in a;
      assert a[0] == b[0];
      forall x ensures x in a[1..] <==> x in b[1..] {
        assert x in a[1..] ==> x in a && x != a[0];
        assert x in b[1..] ==> x in b && x != b[0];
      }
      StrictlySortedUnique(a[1..], b[1..], rank);
    }
  }
}
