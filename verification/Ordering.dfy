/** SQL `ORDER BY` over integer columns: the rows of a table listed by strictly increasing key.

    A key has four columns, compared left to right. The last one is a row number, so that rows
    never tie: SQLite leaves the order of tied rows open, and the model fixes it. */
module Ordering {

  datatype Key = Key(a: int, b: int, c: int, d: int) {
    predicate Less(other: Key) {
      || a < other.a
      || (a == other.a && b < other.b)
      || (a == other.a && b == other.b && c < other.c)
      || (a == other.a && b == other.b && c == other.c && d < other.d)
    }
  }

  ghost predicate Distinct<T>(keys: map<T, Key>) {
    forall x, y :: x in keys && y in keys && keys[x] == keys[y] ==> x == y
  }

  /** s lists every row of the table once, in increasing key order. */
  ghost predicate Lists<T(!new)>(s: seq<T>, keys: map<T, Key>) {
    && (forall x :: x in s <==> x in keys)
    && (forall i, j :: 0 <= i < j < |s| ==> keys[s[i]].Less(keys[s[j]]))
  }

  /** x comes before every other row. */
  predicate IsFirst<T(==, !new)>(x: T, keys: map<T, Key>) {
    x in keys && forall y | y in keys :: y != x ==> keys[x].Less(keys[y])
  }

  /** A non-empty table with distinct keys has a first row, and no two. */
  lemma {:induction false} FirstExists<T(!new)>(keys: map<T, Key>)
    requires keys != map[] && Distinct(keys)
    ensures exists x :: IsFirst(x, keys)
    decreases |keys|
  {
    var x :| x in keys;
    var rest := keys - {x};
    assert rest.Keys == keys.Keys - {x};
    if rest == map[] {
      assert forall y :: y in keys && y != x ==> y in rest;
      assert IsFirst(x, keys);
    } else {
      FirstExists(rest);
      var z :| IsFirst(z, rest);
      assert keys[x] != keys[z];
      if keys[x].Less(keys[z]) {
        forall y | y in keys && y != x
          ensures keys[x].Less(keys[y])
        {
          assert y in rest;
          if y != z { LessIsTransitive(keys[x], keys[z], keys[y]); }
        }
        assert IsFirst(x, keys);
      } else {
        forall y | y in keys && y != z
          ensures keys[z].Less(keys[y])
        {
          if y != x { assert y in rest; }
        }
        assert IsFirst(z, keys);
      }
    }
  }

  lemma LessIsTransitive(k: Key, l: Key, m: Key)
    requires k.Less(l) && l.Less(m)
    ensures k.Less(m)
  {
  }

  /** The rows of a table in key order. */
  function Sorted<T(==, !new)>(keys: map<T, Key>): (s: seq<T>)
    requires Distinct(keys)
    ensures Lists(s, keys)
    decreases |keys|
  {
    if keys == map[] then [] else
      FirstExists(keys);
      assert forall x, y :: IsFirst(x, keys) && IsFirst(y, keys) ==> x == y;
      var x :| x in keys && IsFirst(x, keys);
      var rest := keys - {x};
      assert rest.Keys == keys.Keys - {x};
      ListsCons(x, Sorted(rest), keys);
      [x] + Sorted(rest)
  }

  lemma ListsCons<T(!new)>(x: T, s: seq<T>, keys: map<T, Key>)
    requires IsFirst(x, keys) && Lists(s, keys - {x})
    ensures Lists([x] + s, keys)
  {
    var r := [x] + s;
    assert forall y :: y in r ==> y == x || y in s;
    forall i, j | 0 <= i < j < |r|
      ensures r[i] in keys && r[j] in keys && keys[r[i]].Less(keys[r[j]])
    {
      assert r[j] == s[j - 1] && s[j - 1] in keys - {x};
      if i > 0 { assert r[i] == s[i - 1] && s[i - 1] in keys - {x}; }
    }
    assert forall y :: y in keys ==> y == x || y in keys - {x};
  }

  /** Any list with the property of Sorted is Sorted: the order of a table is unique. */
  lemma {:induction false} SortedIsUnique<T(!new)>(s: seq<T>, r: seq<T>, keys: map<T, Key>)
    requires Lists(s, keys) && Lists(r, keys)
    ensures s == r
    decreases |s|
  {
    if s == [] && r == [] {
    } else {
      var x := (s + r)[0];
      assert x in keys && x in s && x in r;
      assert r[0] in keys;
      assert r[0] in s;
      var i :| 0 <= i < |s| && s[i] == r[0];
      var j :| 0 <= j < |r| && r[j] == s[0];
      assert i == 0 && j == 0;
      var rest := keys - {s[0]};
      ListsTail(s, keys);
      ListsTail(r, keys);
      SortedIsUnique(s[1..], r[1..], rest);
      assert s == [s[0]] + s[1..] && r == [r[0]] + r[1..];
    }
  }

  lemma ListsTail<T(!new)>(s: seq<T>, keys: map<T, Key>)
    requires Lists(s, keys) && s != []
    ensures Lists(s[1..], keys - {s[0]})
  {
  }

  lemma ListedKeysDistinct<T(!new)>(s: seq<T>, keys: map<T, Key>)
    requires Lists(s, keys)
    ensures Distinct(keys)
  {
  }
}
