/**
 * String-keyed dictionaries as JavaScript keeps them: a `Map` or a plain object remembers
 * the order in which keys were first inserted, and overwriting a key keeps its position.
 * `Object.keys` of a plain object lists the array-index keys first, in ascending numeric
 * order, and then every other key in insertion order.
 */
module Dict {
  import opened Text

  /** Keys in first-insertion order, and the value stored under each. */
  datatype Dict<V> = Dict(order: seq<string>, values: map<string, V>) {

    /** Every key is listed once, and the listed keys are exactly the stored ones. */
    predicate Valid() {
      (forall i, j :: 0 <= i < j < |order| ==> order[i] != order[j]) &&
      (forall k :: k in values ==> k in order) &&
      (forall i :: 0 <= i < |order| ==> order[i] in values)
    }

    predicate Has(k: string) { k in values }

    function Get(k: string): (v: V)
      requires Has(k)
      ensures v == values[k]
    {
      values[k]
    }

    /** `map.set(k, v)` / `obj[k] = v`: a new key goes to the end, an existing one keeps its place. */
    function Set(k: string, v: V): (r: Dict<V>)
      ensures r.values == values[k := v]
      ensures k in order ==> r.order == order
      ensures k !in order ==> r.order == order + [k]
    {
      if k in order then Dict(order, values[k := v]) else Dict(order + [k], values[k := v])
    }

    function Size(): (n: nat)
      requires Valid()
      ensures n == |order|
    {
      |order|
    }
  }

  function Empty<V>(): (d: Dict<V>)
    ensures d.Valid() && d.order == [] && d.values == map[]
  {
    Dict([], map[])
  }

  /** Setting a key keeps the dictionary well formed, stores the value under that key,
      and leaves every other key's value and position alone. */
  lemma SetValid<V>(d: Dict<V>, k: string, v: V)
    requires d.Valid()
    ensures d.Set(k, v).Valid()
    ensures d.Set(k, v).Has(k) && d.Set(k, v).Get(k) == v
    ensures forall k' :: k' != k ==> (d.Set(k, v).Has(k') <==> d.Has(k'))
    ensures forall k' :: k' != k && d.Has(k') ==> d.Set(k, v).Get(k') == d.Get(k')
    ensures forall i :: 0 <= i < |d.order| ==> d.Set(k, v).order[i] == d.order[i]
    ensures |d.Set(k, v).order| == |d.order| + (if d.Has(k) then 0 else 1)
  {
  }

  /** Setting a key twice leaves the later value in the place the first set gave it. */
  lemma SetTwice<V>(d: Dict<V>, k: string, v: V, w: V)
    ensures d.Set(k, v).Set(k, w) == d.Set(k, w)
  {
    assert d.values[k := v][k := w] == d.values[k := w];
  }

  // ---------------------------------------------------------------------------------------
  // Object.keys order

  /** Value of a string read as decimal digits (only ever applied to digit strings). */
  function DigitsValue(s: string): (n: nat)
    ensures |s| == 0 ==> n == 0
  {
    if |s| == 0 then 0
    else DigitsValue(s[..|s| - 1]) * 10 + DigitValue(s[|s| - 1])
  }

  function DigitValue(c: char): (d: nat)
    ensures d < 10
    ensures IsDigit(c) ==> d == (c as int) - ('0' as int)
  {
    if IsDigit(c) then (c as int) - ('0' as int) else 0
  }

  /** A canonical array index: decimal digits without a leading zero (except "0" itself),
      at most 2^32 - 2. */
  predicate IsArrayIndex(k: string) {
    |k| > 0 && (forall i :: 0 <= i < |k| ==> IsDigit(k[i])) &&
    (|k| == 1 || k[0] != '0') && DigitsValue(k) <= 4294967294
  }

  function IndexKeys(ks: seq<string>): (r: seq<string>)
    ensures forall i :: 0 <= i < |r| ==> IsArrayIndex(r[i])
    ensures multiset(r) <= multiset(ks)
  {
    if ks == [] then []
    else
      assert ks == [ks[0]] + ks[1..];
      if IsArrayIndex(ks[0]) then [ks[0]] + IndexKeys(ks[1..]) else IndexKeys(ks[1..])
  }

  function OtherKeys(ks: seq<string>): (r: seq<string>)
    ensures forall i :: 0 <= i < |r| ==> !IsArrayIndex(r[i])
  {
    if ks == [] then []
    else if IsArrayIndex(ks[0]) then OtherKeys(ks[1..])
    else [ks[0]] + OtherKeys(ks[1..])
  }

  predicate Ascending<T>(xs: seq<T>, key: T -> nat) {
    forall i, j :: 0 <= i < j < |xs| ==> key(xs[i]) <= key(xs[j])
  }

  /** Inserts `x` into a list before the first element with a larger key. */
  function InsertBy<T>(x: T, sorted: seq<T>, key: T -> nat): (r: seq<T>)
    ensures multiset(r) == multiset(sorted) + multiset{x}
  {
    if sorted == [] || key(x) <= key(sorted[0]) then [x] + sorted
    else
      assert sorted == [sorted[0]] + sorted[1..];
      [sorted[0]] + InsertBy(x, sorted[1..], key)
  }

  lemma {:induction false} InsertByAscending<T>(x: T, sorted: seq<T>, key: T -> nat)
    requires Ascending(sorted, key)
    ensures Ascending(InsertBy(x, sorted, key), key)
  {
    if sorted != [] && key(x) > key(sorted[0]) {
      var tail := sorted[1..];
      InsertByAscending(x, tail, key);
      var rest := InsertBy(x, tail, key);
      InsertByLowerBound(x, tail, key, key(sorted[0]));
      var r := [sorted[0]] + rest;
      forall i, j | 0 <= i < j < |r|
        ensures key(r[i]) <= key(r[j])
      {
        assert r[j] == rest[j - 1];
        if i > 0 {
          assert r[i] == rest[i - 1];
        }
      }
    }
  }

  /** Inserting keeps a lower bound that the element and the list both respect. */
  lemma InsertByLowerBound<T>(x: T, s: seq<T>, key: T -> nat, lo: nat)
    requires lo <= key(x)
    requires forall m :: 0 <= m < |s| ==> lo <= key(s[m])
    ensures forall j :: 0 <= j < |InsertBy(x, s, key)| ==> lo <= key(InsertBy(x, s, key)[j])
  {
    var r := InsertBy(x, s, key);
    forall j | 0 <= j < |r|
      ensures lo <= key(r[j])
    {
      assert r[j] in multiset(r);
      if r[j] != x {
        assert r[j] in multiset(s);
        var m :| 0 <= m < |s| && s[m] == r[j];
      }
    }
  }

  /** Stable insertion sort by a numeric key. */
  function SortBy<T>(xs: seq<T>, key: T -> nat): (r: seq<T>)
    ensures Ascending(r, key)
    ensures multiset(r) == multiset(xs)
  {
    if xs == [] then []
    else
      assert xs == [xs[0]] + xs[1..];
      var sortedTail := SortBy(xs[1..], key);
      InsertByAscending(xs[0], sortedTail, key);
      InsertBy(xs[0], sortedTail, key)
  }

  function SortIndexes(ks: seq<string>): (r: seq<string>)
    ensures Ascending(r, DigitsValue)
    ensures multiset(r) == multiset(ks)
  {
    SortBy(ks, DigitsValue)
  }

  /** The order in which `Object.keys` (and `for … in`, `JSON.stringify`) visits the keys of a
      plain object whose keys were inserted in the order `ks`. */
  function ObjectKeys(ks: seq<string>): (r: seq<string>)
    ensures |r| == |SortIndexes(IndexKeys(ks))| + |OtherKeys(ks)|
  {
    SortIndexes(IndexKeys(ks)) + OtherKeys(ks)
  }

  lemma {:induction false} SplitKeysPermutation(ks: seq<string>)
    ensures multiset(IndexKeys(ks)) + multiset(OtherKeys(ks)) == multiset(ks)
  {
    if ks != [] {
      SplitKeysPermutation(ks[1..]);
      assert ks == [ks[0]] + ks[1..];
    }
  }

  /** `Object.keys` lists every key exactly as often as it was inserted: a permutation. */
  lemma ObjectKeysPermutation(ks: seq<string>)
    ensures multiset(ObjectKeys(ks)) == multiset(ks)
    ensures |ObjectKeys(ks)| == |ks|
  {
    SplitKeysPermutation(ks);
    assert multiset(ObjectKeys(ks)) == multiset(SortIndexes(IndexKeys(ks))) + multiset(OtherKeys(ks));
    assert |ObjectKeys(ks)| == |multiset(ObjectKeys(ks))|;
  }

  /** The array-index keys come first, in ascending numeric order; the remaining keys follow
      in insertion order. */
  lemma ObjectKeysOrder(ks: seq<string>)
    ensures var n := |IndexKeys(ks)|;
      n <= |ObjectKeys(ks)| &&
      (forall i :: 0 <= i < n ==> IsArrayIndex(ObjectKeys(ks)[i])) &&
      (forall i, j :: 0 <= i < j < n ==> DigitsValue(ObjectKeys(ks)[i]) <= DigitsValue(ObjectKeys(ks)[j])) &&
      ObjectKeys(ks)[n..] == OtherKeys(ks)
  {
    var idx := IndexKeys(ks);
    var s := SortIndexes(idx);
    var o := ObjectKeys(ks);
    assert |s| == |idx| by {
      assert |multiset(s)| == |multiset(idx)|;
    }
    forall i | 0 <= i < |s|
      ensures o[i] == s[i] && IsArrayIndex(o[i])
    {
      assert s[i] in multiset(idx);
      var m :| 0 <= m < |idx| && idx[m] == s[i];
    }
    assert o[|s|..] == OtherKeys(ks);
  }

  lemma {:induction false} NoIndexKeysOthers(ks: seq<string>)
    requires forall i :: 0 <= i < |ks| ==> !IsArrayIndex(ks[i])
    ensures IndexKeys(ks) == [] && OtherKeys(ks) == ks
  {
    if ks != [] {
      NoIndexKeysOthers(ks[1..]);
      assert ks == [ks[0]] + ks[1..];
    }
  }

  /** Without array-index keys, `Object.keys` is plain insertion order. */
  lemma ObjectKeysInsertionOrder(ks: seq<string>)
    requires forall i :: 0 <= i < |ks| ==> !IsArrayIndex(ks[i])
    ensures ObjectKeys(ks) == ks
  {
    NoIndexKeysOthers(ks);
  }

  /** A key starting with a letter, `_` or `$` (any identifier) is never an array index. */
  lemma IdentifierNotIndex(k: string)
    requires |k| > 0 && IsIdentStart(k[0])
    ensures !IsArrayIndex(k)
  {
  }
}
