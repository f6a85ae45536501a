/** Python's `<` on str, sorted() of a set, and list.index(), with the
    facts the converters' class lists rest on. */
module Ordering {
  import opened Common

  /** Python's `<` on str: lexicographic by code point, a proper prefix first. */
  predicate StringLt(a: string, b: string)
    decreases |a|
  {
    |b| > 0 && (|a| == 0 || a[0] < b[0] || (a[0] == b[0] && StringLt(a[1..], b[1..])))
  }

  predicate IntLt(a: int, b: int)
  {
    a < b
  }

  ghost predicate StrictTotalOrder<T(!new)>(lt: (T, T) -> bool)
  {
    && (forall a :: !lt(a, a))
    && (forall a, b, c :: lt(a, b) && lt(b, c) ==> lt(a, c))
    && (forall a, b :: a != b ==> lt(a, b) || lt(b, a))
  }

  predicate StrictlySorted<T>(s: seq<T>, lt: (T, T) -> bool)
  {
    forall i, j :: 0 <= i < j < |s| ==> lt(s[i], s[j])
  }

  predicate NoDuplicates<T(==)>(s: seq<T>)
  {
    forall i, j :: 0 <= i < j < |s| ==> s[i] != s[j]
  }

  lemma {:induction false} StringLtIrreflexive(a: string)
    ensures !StringLt(a, a)
    decreases |a|
  {
    if |a| > 0 {
      StringLtIrreflexive(a[1..]);
    }
  }

  lemma {:induction false} StringLtTransitive(a: string, b: string, c: string)
    requires StringLt(a, b) && StringLt(b, c)
    ensures StringLt(a, c)
    decreases |a|
  {
    if |a| > 0 && a[0] == b[0] && b[0] == c[0] {
      StringLtTransitive(a[1..], b[1..], c[1..]);
    }
  }

  lemma {:induction false} StringLtConnected(a: string, b: string)
    requires a != b
    ensures StringLt(a, b) || StringLt(b, a)
    decreases |a|
  {
    if |a| > 0 && |b| > 0 && a[0] == b[0] {
      assert a == [a[0]] + a[1..] && b == [b[0]] + b[1..];
      StringLtConnected(a[1..], b[1..]);
    }
  }

  /** Python's str comparison is a strict total order. */
  lemma StringLtIsStrictTotalOrder()
    ensures StrictTotalOrder(StringLt)
  {
    forall a: string
      ensures !StringLt(a, a)
    {
      StringLtIrreflexive(a);
    }
    forall a: string, b: string, c: string | StringLt(a, b) && StringLt(b, c)
      ensures StringLt(a, c)
    {
      StringLtTransitive(a, b, c);
    }
    forall a: string, b: string | a != b
      ensures StringLt(a, b) || StringLt(b, a)
    {
      StringLtConnected(a, b);
    }
  }

  lemma IntLtIsStrictTotalOrder()
    ensures StrictTotalOrder(IntLt)
  {
  }

  /** Inserts `x` at its place in a strictly sorted sequence. */
  function Insert<T(==,!new)>(s: seq<T>, x: T, lt: (T, T) -> bool): (r: seq<T>)
    requires StrictTotalOrder(lt) && StrictlySorted(s, lt) && x !in s
    ensures StrictlySorted(r, lt)
    ensures |r| == |s| + 1
    ensures forall y :: y in r <==> y in s || y == x
  {
    if s == [] then [x]
    else if lt(x, s[0]) then [x] + s
    else
      var rest := Insert(s[1..], x, lt);
      assert forall k :: 0 <= k < |rest| ==> lt(s[0], rest[k]) by {
        forall k | 0 <= k < |rest|
          ensures lt(s[0], rest[k])
        {
          assert rest[k] in rest;
          if rest[k] != x {
            assert rest[k] in s[1..];
            var m :| 0 <= m < |s[1..]| && s[1..][m] == rest[k];
            assert s[m + 1] == rest[k];
          }
        }
      }
      [s[0]] + rest
  }

  /** sorted() of a set: its elements in strictly increasing order. */
  method SortSet<T(==,!new)>(elements: set<T>, lt: (T, T) -> bool) returns (r: seq<T>)
    requires StrictTotalOrder(lt)
    ensures StrictlySorted(r, lt)
    ensures |r| == |elements|
    ensures forall y :: y in r <==> y in elements
  {
    r := [];
    var rest := elements;
    while rest != {}
      invariant rest <= elements
      invariant StrictlySorted(r, lt)
      invariant |r| + |rest| == |elements|
      invariant forall y :: y in r <==> y in elements && y !in rest
      decreases |rest|
    {
      var x :| x in rest;
      r := Insert(r, x, lt);
      rest := rest - {x};
    }
  }

  /** sorted() of a list without duplicates. */
  function SortSeq<T(==,!new)>(s: seq<T>, lt: (T, T) -> bool): (r: seq<T>)
    requires StrictTotalOrder(lt) && NoDuplicates(s)
    ensures StrictlySorted(r, lt)
    ensures |r| == |s|
    ensures forall y :: y in r <==> y in s
  {
    if s == [] then []
    else
      var prefix := s[..|s| - 1];
      assert s[|s| - 1] !in prefix by {
        forall k | 0 <= k < |prefix|
          ensures prefix[k] != s[|s| - 1]
        {
          assert prefix[k] == s[k];
        }
      }
      Insert(SortSeq(prefix, lt), s[|s| - 1], lt)
  }

  /** The head of a strictly sorted sequence is below every other element. */
  lemma SortedHeadIsLeast<T>(s: seq<T>, lt: (T, T) -> bool, y: T)
    requires StrictlySorted(s, lt) && y in s
    ensures y == s[0] || lt(s[0], y)
  {
    var k :| 0 <= k < |s| && s[k] == y;
    if k > 0 {
      assert lt(s[0], s[k]);
    }
  }

  /** The tail of a strictly sorted sequence holds all elements but the head. */
  lemma SortedTail<T(!new)>(s: seq<T>, lt: (T, T) -> bool, y: T)
    requires StrictTotalOrder(lt) && StrictlySorted(s, lt) && |s| > 0
    ensures y in s[1..] <==> y in s && y != s[0]
  {
    if y in s[1..] {
      var m :| 0 <= m < |s[1..]| && s[1..][m] == y;
      assert lt(s[0], s[m + 1]);
    }
    if y in s && y != s[0] {
      var k :| 0 <= k < |s| && s[k] == y;
      assert s[1..][k - 1] == y;
    }
  }

  /** A strictly sorted sequence is determined by its elements, so SortSet
      has exactly one possible result, the one sorted() returns. */
  lemma {:induction false} SortedUnique<T(!new)>(a: seq<T>, b: seq<T>, lt: (T, T) -> bool)
    requires StrictTotalOrder(lt) && StrictlySorted(a, lt) && StrictlySorted(b, lt)
    requires forall y :: y in a <==> y in b
    ensures a == b
    decreases |a|
  {
    assert a == [] <==> b == [] by {
      if a != [] {
        assert a[0] in b;
      }
      if b != [] {
        assert b[0] in a;
      }
    }
    if a != [] {
      SortedHeadIsLeast(b, lt, a[0]);
      SortedHeadIsLeast(a, lt, b[0]);
      forall y
        ensures y in a[1..] <==> y in b[1..]
      {
        SortedTail(a, lt, y);
        SortedTail(b, lt, y);
      }
      SortedUnique(a[1..], b[1..], lt);
      assert a == [a[0]] + a[1..] && b == [b[0]] + b[1..];
    }
  }

  /** Python's list.index(x): the first position holding `x`; ValueError
      when there is none. */
  function IndexOf<T(==)>(s: seq<T>, x: T): (r: Result<nat>)
    ensures r.Ok? <==> x in s
    ensures r.Ok? ==> r.value < |s| && s[r.value] == x && forall j :: 0 <= j < r.value ==> s[j] != x
    ensures r.Err? ==> r.error == ValueError
  {
    if s == [] then Err(ValueError)
    else if s[0] == x then Ok(0)
    else
      match IndexOf(s[1..], x)
      case Ok(k) => Ok(k + 1)
      case Err(e) => Err(e)
  }

  /** Two positions of a strictly sorted sequence hold different elements. */
  lemma SortedDistinct<T(!new)>(s: seq<T>, lt: (T, T) -> bool, i: nat, j: nat)
    requires StrictTotalOrder(lt) && StrictlySorted(s, lt)
    requires i < j < |s|
    ensures s[i] != s[j]
  {
    assert lt(s[i], s[j]);
  }

  /** In a strictly sorted list the index of an element is its position, so
      list.index numbers the elements densely from 0. */
  lemma SortedIndexIsPosition<T(!new)>(s: seq<T>, lt: (T, T) -> bool, i: nat)
    requires StrictTotalOrder(lt) && StrictlySorted(s, lt)
    requires i < |s|
    ensures IndexOf(s, s[i]) == Ok(i)
  {
    forall k | 0 <= k < i
      ensures s[k] != s[i]
    {
      SortedDistinct(s, lt, k, i);
    }
  }

  /** Positions in a strictly sorted list follow the order of the elements. */
  lemma SortedPositionsFollowOrder<T(!new)>(s: seq<T>, lt: (T, T) -> bool, i: nat, j: nat)
    requires StrictTotalOrder(lt) && StrictlySorted(s, lt)
    requires i < |s| && j < |s|
    ensures lt(s[i], s[j]) <==> i < j
  {
    if j < i {
      assert lt(s[j], s[i]);
    }
  }
}
