/**
 * The list operations the pages and the reducer perform on their state:
 * `Array.prototype.filter`, the `map` that replaces the entry whose id matches
 * a saved record, the `filter` that drops a deleted id, and the index filter
 * that removes one position.
 */
module Lists {

  /** `a` is `b` with some elements left out, the rest in their original order. */
  predicate IsSubsequence<T(==)>(a: seq<T>, b: seq<T>)
    decreases |b|
  {
    if a == [] then true
    else if b == [] then false
    else if a[0] == b[0] then IsSubsequence(a[1..], b[1..])
    else IsSubsequence(a, b[1..])
  }

  /** `s.filter(p)`: exactly the elements satisfying `p`. */
  function Filter<T(==)>(s: seq<T>, p: T -> bool): (r: seq<T>)
    ensures |r| <= |s|
    ensures forall i :: 0 <= i < |r| ==> p(r[i]) && r[i] in s
    ensures forall i :: 0 <= i < |s| && p(s[i]) ==> s[i] in r
  {
    if s == [] then []
    else if p(s[0]) then [s[0]] + Filter(s[1..], p)
    else Filter(s[1..], p)
  }

  /** The filtered list keeps the surviving elements in their original order. */
  lemma {:induction false} FilterIsSubsequence<T>(s: seq<T>, p: T -> bool)
    ensures IsSubsequence(Filter(s, p), s)
  {
    if s != [] {
      FilterIsSubsequence(s[1..], p);
      if !p(s[0]) {
        SubsequenceOfTail(Filter(s[1..], p), s);
      }
    }
  }

  lemma {:induction false} SubsequenceOfTail<T>(a: seq<T>, b: seq<T>)
    requires b != [] && IsSubsequence(a, b[1..])
    ensures IsSubsequence(a, b)
    decreases |b|, |a|
  {
    if a != [] && a[0] == b[0] {
      SubsequenceDropHead(a, b[1..]);
    }
  }

  lemma {:induction false} SubsequenceDropHead<T>(a: seq<T>, b: seq<T>)
    requires a != [] && IsSubsequence(a, b)
    ensures IsSubsequence(a[1..], b)
    decreases |b|, |a|
  {
    if b != [] {
      if a[0] == b[0] {
        SubsequenceOfTail(a[1..], b);
      } else {
        SubsequenceDropHead(a, b[1..]);
        SubsequenceOfTail(a[1..], b);
      }
    }
  }

  /** When every element satisfies the predicate, filtering changes nothing. */
  lemma {:induction false} FilterKeepsAll<T>(s: seq<T>, p: T -> bool)
    requires forall i :: 0 <= i < |s| ==> p(s[i])
    ensures Filter(s, p) == s
  {
    if s != [] {
      FilterKeepsAll(s[1..], p);
    }
  }

  /** Filtering twice with the same predicate is filtering once. */
  lemma FilterIdempotent<T>(s: seq<T>, p: T -> bool)
    ensures Filter(Filter(s, p), p) == Filter(s, p)
  {
    FilterKeepsAll(Filter(s, p), p);
  }

  /** Filtering distributes over concatenation. */
  lemma {:induction false} FilterAppend<T>(a: seq<T>, b: seq<T>, p: T -> bool)
    ensures Filter(a + b, p) == Filter(a, p) + Filter(b, p)
  {
    if a != [] {
      assert (a + b)[0] == a[0];
      assert (a + b)[1..] == a[1..] + b;
      FilterAppend(a[1..], b, p);
      if p(a[0]) {
        assert Filter(a + b, p) == [a[0]] + Filter(a[1..] + b, p);
      } else {
        assert Filter(a + b, p) == Filter(a[1..] + b, p);
      }
    } else {
      assert a + b == b;
    }
  }

  /** The predicate "the key of this entry is not `k`". */
  function KeyIsNot<T, K(==)>(key: T -> K, k: K): T -> bool {
    t => key(t) != k
  }

  /** `s.filter(t => t._id !== k)`: the list after entry `k` was deleted. */
  function DeleteById<T(==), K(==)>(s: seq<T>, key: T -> K, k: K): (r: seq<T>)
    ensures forall i :: 0 <= i < |r| ==> key(r[i]) != k && r[i] in s
    ensures forall i :: 0 <= i < |s| && key(s[i]) != k ==> s[i] in r
    ensures IsSubsequence(r, s)
  {
    FilterIsSubsequence(s, KeyIsNot(key, k));
    Filter(s, KeyIsNot(key, k))
  }

  /** `s.map(t => t._id === x._id ? x : t)`: the list after `x` was saved over its old copy. */
  function ReplaceById<T, K(==)>(s: seq<T>, key: T -> K, x: T): (r: seq<T>)
    ensures |r| == |s|
    ensures forall i :: 0 <= i < |s| && key(s[i]) == key(x) ==> r[i] == x
    ensures forall i :: 0 <= i < |s| && key(s[i]) != key(x) ==> r[i] == s[i]
  {
    if s == [] then []
    else [if key(s[0]) == key(x) then x else s[0]] + ReplaceById(s[1..], key, x)
  }

  /** Replacing an entry leaves every entry with another id where it was. */
  lemma {:induction false} ReplaceKeepsOthers<T, K>(s: seq<T>, key: T -> K, x: T)
    ensures DeleteById(ReplaceById(s, key, x), key, key(x)) == DeleteById(s, key, key(x))
  {
    if s != [] {
      var p := KeyIsNot(key, key(x));
      var r := ReplaceById(s, key, x);
      assert r[1..] == ReplaceById(s[1..], key, x);
      ReplaceKeepsOthers(s[1..], key, x);
      assert Filter(r, p) == (if p(r[0]) then [r[0]] else []) + Filter(r[1..], p);
    }
  }

  /** A record whose id is not in the list is not added by a replace. */
  lemma ReplaceAbsentIsIdentity<T, K>(s: seq<T>, key: T -> K, x: T)
    requires forall i :: 0 <= i < |s| ==> key(s[i]) != key(x)
    ensures ReplaceById(s, key, x) == s
  {
  }

  /** Appending a record and deleting its id gives back the list without that id. */
  lemma AppendThenDelete<T, K>(s: seq<T>, key: T -> K, x: T)
    ensures DeleteById(s + [x], key, key(x)) == DeleteById(s, key, key(x))
  {
    var p := KeyIsNot(key, key(x));
    FilterAppend(s, [x], p);
    assert Filter([x], p) == [];
  }

  /** Deleting an id that is not present leaves the list unchanged. */
  lemma DeleteAbsentIsIdentity<T, K>(s: seq<T>, key: T -> K, k: K)
    requires forall i :: 0 <= i < |s| ==> key(s[i]) != k
    ensures DeleteById(s, key, k) == s
  {
    FilterKeepsAll(s, KeyIsNot(key, k));
  }

  /** `s.filter((_, j) => j !== i)`: position `i` dropped, counting positions from the front. */
  function RemoveIndex<T>(s: seq<T>, i: int): (r: seq<T>)
    ensures 0 <= i < |s| ==> |r| == |s| - 1
    ensures 0 <= i < |s| ==> forall j :: 0 <= j < i ==> r[j] == s[j]
    ensures 0 <= i < |s| ==> forall j :: i <= j < |r| ==> r[j] == s[j + 1]
    ensures !(0 <= i < |s|) ==> r == s
  {
    if s == [] then []
    else (if i == 0 then [] else [s[0]]) + RemoveIndex(s[1..], i - 1)
  }

  /** The index filter is the slice that skips position `i`. */
  lemma RemoveIndexIsSlice<T>(s: seq<T>, i: int)
    requires 0 <= i < |s|
    ensures RemoveIndex(s, i) == s[..i] + s[i + 1..]
  {
  }
}
