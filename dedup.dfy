/**
 * First-wins de-duplication by a string key: the shape of both scanners' `removeDuplicates`
 * (`filter` with a `seen` set) and of `[...new Set(list)]`.
 */
module Dedup {

  /** The elements of `xs` whose key is neither in `seen` nor the key of an earlier element. */
  function Unique<T>(xs: seq<T>, key: T -> string, seen: set<string>): seq<T>
    decreases |xs|
  {
    if xs == [] then []
    else if key(xs[0]) in seen then Unique(xs[1..], key, seen)
    else [xs[0]] + Unique(xs[1..], key, seen + {key(xs[0])})
  }

  /** `sub` is `xs` with some elements dropped, the rest in their original order. */
  predicate IsSubsequence<T(==)>(sub: seq<T>, xs: seq<T>)
    decreases |xs|
  {
    if sub == [] then true
    else if xs == [] then false
    else if sub[0] == xs[0] then IsSubsequence(sub[1..], xs[1..])
    else IsSubsequence(sub, xs[1..])
  }

  /** `xs[i]` is the first element of `xs` with its key, and that key is not in `seen`. */
  ghost predicate FirstOfKey<T>(xs: seq<T>, key: T -> string, seen: set<string>, i: int)
    requires 0 <= i < |xs|
  {
    key(xs[i]) !in seen && forall j :: 0 <= j < i ==> key(xs[j]) != key(xs[i])
  }

  lemma {:induction false} SubsequenceLength<T>(sub: seq<T>, xs: seq<T>)
    requires IsSubsequence(sub, xs)
    ensures |sub| <= |xs|
    decreases |xs|
  {
    if sub != [] {
      if sub[0] == xs[0] {
        SubsequenceLength(sub[1..], xs[1..]);
      } else {
        SubsequenceLength(sub, xs[1..]);
      }
    }
  }

  /** The output keeps input order: it is a subsequence of the input. */
  lemma {:induction false} UniqueIsSubsequence<T>(xs: seq<T>, key: T -> string, seen: set<string>)
    ensures IsSubsequence(Unique(xs, key, seen), xs)
    ensures |Unique(xs, key, seen)| <= |xs|
    decreases |xs|
  {
    if xs != [] {
      if key(xs[0]) in seen {
        UniqueIsSubsequence(xs[1..], key, seen);
        SkipHead(Unique(xs[1..], key, seen), xs);
      } else {
        UniqueIsSubsequence(xs[1..], key, seen + {key(xs[0])});
        var r := Unique(xs, key, seen);
        assert r[0] == xs[0] && r[1..] == Unique(xs[1..], key, seen + {key(xs[0])});
      }
    }
    SubsequenceLength(Unique(xs, key, seen), xs);
  }

  lemma {:induction false} SkipHead<T>(sub: seq<T>, xs: seq<T>)
    requires xs != [] && IsSubsequence(sub, xs[1..])
    ensures IsSubsequence(sub, xs)
    decreases |xs|, 0
  {
    if sub != [] && sub[0] == xs[0] {
      SubsequenceTail(sub, xs[1..]);
    }
  }

  lemma {:induction false} SubsequenceTail<T>(sub: seq<T>, xs: seq<T>)
    requires sub != [] && IsSubsequence(sub, xs)
    ensures IsSubsequence(sub[1..], xs)
    decreases |xs|, 1
  {
    if sub[1..] != [] {
      if sub[0] != xs[0] {
        SubsequenceTail(sub, xs[1..]);
      }
      SkipHead(sub[1..], xs);
    }
  }

  /** Every element kept has a key outside `seen`, and no two kept elements share a key. */
  lemma {:induction false} UniqueKeysDistinct<T>(xs: seq<T>, key: T -> string, seen: set<string>)
    ensures forall i :: 0 <= i < |Unique(xs, key, seen)| ==> key(Unique(xs, key, seen)[i]) !in seen
    ensures forall i, j :: 0 <= i < j < |Unique(xs, key, seen)| ==>
              key(Unique(xs, key, seen)[i]) != key(Unique(xs, key, seen)[j])
    decreases |xs|
  {
    if xs != [] {
      if key(xs[0]) in seen {
        UniqueKeysDistinct(xs[1..], key, seen);
      } else {
        UniqueKeysDistinct(xs[1..], key, seen + {key(xs[0])});
      }
    }
  }

  /** An element is kept exactly when it is the first with its key (and the key is new);
      every kept element is such a first occurrence; and the output lists those first
      occurrences position by position, in the order they occur in the input. */
  lemma {:induction false} UniqueKeepsFirst<T>(xs: seq<T>, key: T -> string, seen: set<string>)
    ensures forall i :: 0 <= i < |xs| && FirstOfKey(xs, key, seen, i) ==> xs[i] in Unique(xs, key, seen)
    ensures forall y :: y in Unique(xs, key, seen) ==>
              exists i :: 0 <= i < |xs| && xs[i] == y && FirstOfKey(xs, key, seen, i)
    ensures exists idx :: FirstSeen(Unique(xs, key, seen), xs, key, seen, idx)
    decreases |xs|
  {
    var idx := UniqueIndices(xs, key, seen);
    if xs != [] {
      var seen' := if key(xs[0]) in seen then seen else seen + {key(xs[0])};
      UniqueKeepsFirst(xs[1..], key, seen');
      var r := Unique(xs, key, seen);
      var tail := Unique(xs[1..], key, seen');
      assert r == (if key(xs[0]) in seen then tail else [xs[0]] + tail);
      forall i | 0 <= i < |xs| && FirstOfKey(xs, key, seen, i)
        ensures xs[i] in r
      {
        if i > 0 {
          assert xs[i] == xs[1..][i - 1];
          assert FirstOfKey(xs[1..], key, seen', i - 1) by {
            forall j | 0 <= j < i - 1 ensures key(xs[1..][j]) != key(xs[1..][i - 1]) {
              assert xs[1..][j] == xs[j + 1];
            }
          }
        }
      }
      forall y | y in r
        ensures exists i :: 0 <= i < |xs| && xs[i] == y && FirstOfKey(xs, key, seen, i)
      {
        if y in tail {
          var i :| 0 <= i < |xs[1..]| && xs[1..][i] == y && FirstOfKey(xs[1..], key, seen', i);
          assert xs[i + 1] == y;
          assert FirstOfKey(xs, key, seen, i + 1) by {
            forall j | 0 <= j < i + 1 ensures key(xs[j]) != key(xs[i + 1]) {
              if j > 0 { assert xs[j] == xs[1..][j - 1]; }
            }
          }
        } else {
          assert y == xs[0] && FirstOfKey(xs, key, seen, 0);
        }
      }
    }
  }

  /** `u` lists the first occurrences of the keys of `xs` in the order they occur: `idx`
      holds, in increasing order, the position in `xs` of each element of `u`, and every
      first occurrence of a key outside `seen` is among those positions. */
  ghost predicate FirstSeen<T>(u: seq<T>, xs: seq<T>, key: T -> string, seen: set<string>, idx: seq<nat>) {
    |idx| == |u| &&
    (forall k :: 0 <= k < |idx| ==>
       idx[k] < |xs| && u[k] == xs[idx[k]] && FirstOfKey(xs, key, seen, idx[k])) &&
    (forall k, l :: 0 <= k < l < |idx| ==> idx[k] < idx[l]) &&
    (forall i :: 0 <= i < |xs| && FirstOfKey(xs, key, seen, i) ==> i in idx)
  }

  /** Past the head, being a first occurrence is the same in `xs` and in its tail, once
      the head's key is counted as seen. */
  lemma FirstOfKeyTail<T>(xs: seq<T>, key: T -> string, seen: set<string>, i: int)
    requires 0 < i < |xs|
    ensures FirstOfKey(xs, key, seen, i) <==>
            FirstOfKey(xs[1..], key, seen + {key(xs[0])}, i - 1)
  {
    assert xs[1..][i - 1] == xs[i];
    if FirstOfKey(xs[1..], key, seen + {key(xs[0])}, i - 1) {
      forall j | 0 <= j < i ensures key(xs[j]) != key(xs[i]) {
        if j > 0 { assert xs[j] == xs[1..][j - 1]; }
      }
    }
    if FirstOfKey(xs, key, seen, i) {
      forall j | 0 <= j < i - 1 ensures key(xs[1..][j]) != key(xs[1..][i - 1]) {
        assert xs[1..][j] == xs[j + 1];
      }
    }
  }

  /** The tail's positions, moved one place right, are first occurrences in `xs`. */
  lemma ShiftIndices<T>(xs: seq<T>, key: T -> string, seen: set<string>, tail: seq<T>, tailIdx: seq<nat>)
    returns (shifted: seq<nat>)
    requires xs != []
    requires FirstSeen(tail, xs[1..], key, seen + {key(xs[0])}, tailIdx)
    ensures |shifted| == |tail|
    ensures forall k :: 0 <= k < |shifted| ==>
              0 < shifted[k] < |xs| && tail[k] == xs[shifted[k]] && FirstOfKey(xs, key, seen, shifted[k])
    ensures forall k, l :: 0 <= k < l < |shifted| ==> shifted[k] < shifted[l]
    ensures forall i :: 0 < i < |xs| && FirstOfKey(xs, key, seen, i) ==> i in shifted
  {
    shifted := seq(|tailIdx|, k requires 0 <= k < |tailIdx| => tailIdx[k] + 1);
    forall k | 0 <= k < |shifted|
      ensures 0 < shifted[k] < |xs| && tail[k] == xs[shifted[k]] && FirstOfKey(xs, key, seen, shifted[k])
    {
      assert xs[1..][tailIdx[k]] == xs[shifted[k]];
      FirstOfKeyTail(xs, key, seen, shifted[k]);
    }
    forall i | 0 < i < |xs| && FirstOfKey(xs, key, seen, i) ensures i in shifted {
      FirstOfKeyTail(xs, key, seen, i);
      var k :| 0 <= k < |tailIdx| && tailIdx[k] == i - 1;
      assert shifted[k] == i;
    }
  }

  /** The positions behind the output of `Unique`, built along its recursion. */
  lemma {:induction false} UniqueIndices<T>(xs: seq<T>, key: T -> string, seen: set<string>)
    returns (idx: seq<nat>)
    ensures FirstSeen(Unique(xs, key, seen), xs, key, seen, idx)
    decreases |xs|
  {
    if xs == [] {
      idx := [];
    } else if key(xs[0]) in seen {
      assert seen + {key(xs[0])} == seen;
      var tailIdx := UniqueIndices(xs[1..], key, seen);
      idx := ShiftIndices(xs, key, seen, Unique(xs[1..], key, seen), tailIdx);
    } else {
      var seen' := seen + {key(xs[0])};
      var tailIdx := UniqueIndices(xs[1..], key, seen');
      var shifted := ShiftIndices(xs, key, seen, Unique(xs[1..], key, seen'), tailIdx);
      idx := ConsIndices(xs, key, seen, Unique(xs[1..], key, seen'), shifted);
    }
  }

  /** A new head key goes in front of the tail's positions. */
  lemma ConsIndices<T>(xs: seq<T>, key: T -> string, seen: set<string>, tail: seq<T>, shifted: seq<nat>)
    returns (idx: seq<nat>)
    requires xs != [] && key(xs[0]) !in seen
    requires |shifted| == |tail|
    requires forall k :: 0 <= k < |shifted| ==>
               0 < shifted[k] < |xs| && tail[k] == xs[shifted[k]] && FirstOfKey(xs, key, seen, shifted[k])
    requires forall k, l :: 0 <= k < l < |shifted| ==> shifted[k] < shifted[l]
    requires forall i :: 0 < i < |xs| && FirstOfKey(xs, key, seen, i) ==> i in shifted
    ensures FirstSeen([xs[0]] + tail, xs, key, seen, idx)
  {
    idx := [0] + shifted;
    var u := [xs[0]] + tail;
    forall k | 0 <= k < |idx|
      ensures idx[k] < |xs| && u[k] == xs[idx[k]] && FirstOfKey(xs, key, seen, idx[k])
    {
      if k > 0 { assert idx[k] == shifted[k - 1] && u[k] == tail[k - 1]; }
    }
    forall i | 0 <= i < |xs| && FirstOfKey(xs, key, seen, i) ensures i in idx {
      if i > 0 { assert i in shifted; }
    }
  }

  /** Every key of the input that is not in `seen` is the key of some kept element. */
  lemma {:induction false} UniqueCoversKeys<T>(xs: seq<T>, key: T -> string, seen: set<string>)
    ensures forall x :: x in xs && key(x) !in seen ==>
              exists y :: y in Unique(xs, key, seen) && key(y) == key(x)
    decreases |xs|
  {
    if xs != [] {
      var seen' := if key(xs[0]) in seen then seen else seen + {key(xs[0])};
      UniqueCoversKeys(xs[1..], key, seen');
      forall x | x in xs && key(x) !in seen
        ensures exists y :: y in Unique(xs, key, seen) && key(y) == key(x)
      {
        if key(x) == key(xs[0]) {
          assert xs[0] in Unique(xs, key, seen);
        } else {
          assert x in xs[1..];
          var y :| y in Unique(xs[1..], key, seen') && key(y) == key(x);
          assert y in Unique(xs, key, seen);
        }
      }
    }
  }

  /** A sequence whose keys are distinct and avoid `seen` passes through unchanged. */
  lemma {:induction false} UniqueOfDistinct<T>(xs: seq<T>, key: T -> string, seen: set<string>)
    requires forall i :: 0 <= i < |xs| ==> key(xs[i]) !in seen
    requires forall i, j :: 0 <= i < j < |xs| ==> key(xs[i]) != key(xs[j])
    ensures Unique(xs, key, seen) == xs
    decreases |xs|
  {
    if xs != [] {
      var seen' := seen + {key(xs[0])};
      forall i | 0 <= i < |xs[1..]| ensures key(xs[1..][i]) !in seen' {
        assert xs[1..][i] == xs[i + 1];
      }
      forall i, j | 0 <= i < j < |xs[1..]| ensures key(xs[1..][i]) != key(xs[1..][j]) {
        assert xs[1..][i] == xs[i + 1] && xs[1..][j] == xs[j + 1];
      }
      UniqueOfDistinct(xs[1..], key, seen');
    }
  }

  /** De-duplicating twice is de-duplicating once. */
  lemma UniqueIdempotent<T>(xs: seq<T>, key: T -> string)
    ensures Unique(Unique(xs, key, {}), key, {}) == Unique(xs, key, {})
  {
    UniqueKeysDistinct(xs, key, {});
    UniqueOfDistinct(Unique(xs, key, {}), key, {});
  }
}
