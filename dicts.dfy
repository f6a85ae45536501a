/** Python dicts from int to str as the COCO scripts use them (insertion
    ordered, assignment to an existing key keeping its place), and the
    distinct values of a list in order of first occurrence. */
module Dicts {
  import opened Common
  import opened Ordering
  import opened Records

  datatype Entry = Entry(key: int, value: string)

  /** A dict: its entries in insertion order. */
  type Dict = seq<Entry>

  function Keys(d: Dict): seq<int>
  {
    if d == [] then [] else [d[0].key] + Keys(d[1..])
  }

  function Values(d: Dict): seq<string>
  {
    if d == [] then [] else [d[0].value] + Values(d[1..])
  }

  /** `d.get(k)`. */
  function Get(d: Dict, k: int): (r: Option<string>)
    ensures r.Some? <==> k in Keys(d)
    ensures r.Some? ==> Entry(k, r.value) in d
  {
    if d == [] then None
    else if d[0].key == k then Some(d[0].value)
    else Get(d[1..], k)
  }

  /** `d[k] = v`: an existing key keeps its place, a new one goes last. */
  function Put(d: Dict, k: int, v: string): (r: Dict)
    ensures Get(r, k) == Some(v)
    ensures forall k' :: k' != k ==> Get(r, k') == Get(d, k')
    ensures k in Keys(d) ==> Keys(r) == Keys(d)
    ensures k !in Keys(d) ==> Keys(r) == Keys(d) + [k]
    ensures NoDuplicates(Keys(d)) ==> NoDuplicates(Keys(r))
  {
    if d == [] then [Entry(k, v)]
    else if d[0].key == k then
      var r := [Entry(k, v)] + d[1..];
      assert r[1..] == d[1..];
      assert Keys(r) == Keys(d);
      r
    else
      var rest := Put(d[1..], k, v);
      var r := [d[0]] + rest;
      assert r[1..] == rest;
      assert Keys(r) == [d[0].key] + Keys(rest);
      assert NoDuplicates(Keys(d)) ==> NoDuplicates(Keys(r)) by {
        if NoDuplicates(Keys(d)) {
          ConsNoDuplicates(Keys(d));
          ConsNoDuplicatesBack(d[0].key, Keys(rest));
        }
      }
      r
  }

  /** The tail of a duplicate-free sequence is duplicate-free and lacks the head. */
  lemma ConsNoDuplicates<T>(s: seq<T>)
    requires s != [] && NoDuplicates(s)
    ensures NoDuplicates(s[1..]) && s[0] !in s[1..]
  {
    forall j | 0 <= j < |s[1..]|
      ensures s[1..][j] != s[0]
    {
      assert s[1..][j] == s[j + 1];
    }
    forall i, j | 0 <= i < j < |s[1..]|
      ensures s[1..][i] != s[1..][j]
    {
      assert s[1..][i] == s[i + 1] && s[1..][j] == s[j + 1];
    }
  }

  /** A fresh head keeps a duplicate-free sequence duplicate-free. */
  lemma ConsNoDuplicatesBack<T>(x: T, s: seq<T>)
    requires NoDuplicates(s) && x !in s
    ensures NoDuplicates([x] + s)
  {
    forall i, j | 0 <= i < j < |[x] + s|
      ensures ([x] + s)[i] != ([x] + s)[j]
    {
      if i > 0 {
        assert ([x] + s)[i] == s[i - 1];
      }
      assert ([x] + s)[j] == s[j - 1];
    }
  }

  /** Assigns each category's name to its id, in list order; this is both
      `{c["id"]: c["name"] for c in cats}` built from an empty dict and
      `d.update` with that comprehension. */
  function PutAll(d: Dict, cats: seq<CocoCategory>): Dict
  {
    if cats == [] then d
    else
      var last := cats[|cats| - 1];
      Put(PutAll(d, cats[..|cats| - 1]), last.id, last.name)
  }

  /** The name the last category with id `k` carries, if any. */
  function LastName(cats: seq<CocoCategory>, k: int): (r: Option<string>)
    ensures r.Some? <==> exists i :: 0 <= i < |cats| && cats[i].id == k
    ensures r.Some? ==> exists i :: 0 <= i < |cats| && cats[i] == CocoCategory(k, r.value)
                                    && forall j :: i < j < |cats| ==> cats[j].id != k
  {
    if cats == [] then None
    else if cats[|cats| - 1].id == k then
      assert cats[|cats| - 1] == CocoCategory(k, cats[|cats| - 1].name);
      Some(cats[|cats| - 1].name)
    else
      var r := LastName(cats[..|cats| - 1], k);
      LastNameSkipsLast(cats, k, r);
      r
  }

  /** A last entry with another id leaves the last name of `k` as it was. */
  lemma LastNameSkipsLast(cats: seq<CocoCategory>, k: int, r: Option<string>)
    requires cats != [] && cats[|cats| - 1].id != k
    requires var p := cats[..|cats| - 1];
      && (r.Some? <==> exists i :: 0 <= i < |p| && p[i].id == k)
      && (r.Some? ==> exists i :: 0 <= i < |p| && p[i] == CocoCategory(k, r.value) && forall j :: i < j < |p| ==> p[j].id != k)
    ensures r.Some? <==> exists i :: 0 <= i < |cats| && cats[i].id == k
    ensures r.Some? ==> exists i :: 0 <= i < |cats| && cats[i] == CocoCategory(k, r.value)
                                    && forall j :: i < j < |cats| ==> cats[j].id != k
  {
    var n := |cats| - 1;
    var p := cats[..n];
    assert forall i :: 0 <= i < n ==> p[i] == cats[i];
    if r.Some? {
      var i :| 0 <= i < n && p[i] == CocoCategory(k, r.value) && forall j :: i < j < n ==> p[j].id != k;
      assert cats[i] == CocoCategory(k, r.value);
      assert forall j :: i < j < |cats| ==> cats[j].id != k;
    }
  }

  /** After the assignments, a key holds the name of the last category with
      that id, and keys no category names keep their old value. */
  lemma {:induction false} PutAllGet(d: Dict, cats: seq<CocoCategory>, k: int)
    ensures Get(PutAll(d, cats), k) == if LastName(cats, k).Some? then LastName(cats, k) else Get(d, k)
    decreases |cats|
  {
    if cats != [] {
      PutAllGet(d, cats[..|cats| - 1], k);
    }
  }

  /** The assignments keep the keys already present, in their places, and
      keep the keys free of duplicates. */
  lemma {:induction false} PutAllKeepsKeys(d: Dict, cats: seq<CocoCategory>)
    ensures |Keys(d)| <= |Keys(PutAll(d, cats))|
    ensures Keys(PutAll(d, cats))[..|Keys(d)|] == Keys(d)
    ensures NoDuplicates(Keys(d)) ==> NoDuplicates(Keys(PutAll(d, cats)))
    decreases |cats|
  {
    if cats != [] {
      PutAllKeepsKeys(d, cats[..|cats| - 1]);
      var before := Keys(PutAll(d, cats[..|cats| - 1]));
      assert (before + [cats[|cats| - 1].id])[..|Keys(d)|] == before[..|Keys(d)|];
    }
  }

  /** `sorted(set(xs), key=xs.index)`: the distinct elements of `xs`. */
  function Distinct<T(==,!new)>(xs: seq<T>): (r: seq<T>)
    ensures NoDuplicates(r)
    ensures forall x :: x in r <==> x in xs
  {
    if xs == [] then []
    else
      var p := Distinct(xs[..|xs| - 1]);
      var x := xs[|xs| - 1];
      assert forall y :: y in xs <==> y in xs[..|xs| - 1] || y == x by {
        assert xs == xs[..|xs| - 1] + [x];
      }
      if x in p then p else p + [x]
  }

  /** A first occurrence within a prefix is the first occurrence in the whole. */
  lemma IndexOfPrefix<T>(xs: seq<T>, n: nat, y: T)
    requires n <= |xs| && y in xs[..n]
    ensures IndexOf(xs, y) == IndexOf(xs[..n], y)
  {
    var m := IndexOf(xs[..n], y).value;
    assert xs[m] == xs[..n][m];
    assert forall j :: 0 <= j < m ==> xs[..n][j] == xs[j];
    var r := IndexOf(xs, y).value;
    assert r <= m;
    assert r < n ==> xs[..n][r] == xs[r];
    assert r == m;
  }

  /** Distinct lists the elements in the order of their first occurrence,
      which is the order `key=xs.index` sorts them into. */
  lemma {:induction false} DistinctInFirstOccurrenceOrder<T(!new)>(xs: seq<T>, i: nat, j: nat)
    requires i < j < |Distinct(xs)|
    ensures IndexOf(xs, Distinct(xs)[i]).value < IndexOf(xs, Distinct(xs)[j]).value
    decreases |xs|
  {
    var n := |xs| - 1;
    var p := Distinct(xs[..n]);
    var x := xs[n];
    var r := Distinct(xs);
    assert r[i] in p by {
      assert r[i] == p[i];
    }
    IndexOfPrefix(xs, n, r[i]);
    if j < |p| {
      assert r[j] == p[j] && r[i] == p[i];
      IndexOfPrefix(xs, n, r[j]);
      DistinctInFirstOccurrenceOrder(xs[..n], i, j);
    } else {
      assert r == p + [x] && r[j] == x && x !in xs[..n];
      assert IndexOf(xs, x).value == n;
    }
  }
}
