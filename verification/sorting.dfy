/** The store's `.sort({field: -1})`: a descending order on a numeric key.
    Ties keep their input order: `InsertPlaces` shows each insertion goes
    ahead of equal keys; stability of the whole sort follows from that and
    is not stated as a lemma. */
module Sorting {

  /** `s` is non-increasing in `key`. */
  predicate Nonincreasing<T>(s: seq<T>, key: T -> real) {
    forall i, j :: 0 <= i < j < |s| ==> key(s[i]) >= key(s[j])
  }

  /** Inserts `x` into the descending sequence `s`, before the first
      element whose key is not larger than x's key. */
  function Insert<T>(x: T, s: seq<T>, key: T -> real): (r: seq<T>)
    requires Nonincreasing(s, key)
    ensures Nonincreasing(r, key)
    ensures multiset(r) == multiset(s) + multiset{x}
    ensures |r| == |s| + 1
    ensures r[0] == x || (|s| > 0 && r[0] == s[0])
  {
    if |s| == 0 || key(x) >= key(s[0]) then [x] + s
    else
      var rest := Insert(x, s[1..], key);
      assert s == [s[0]] + s[1..];
      assert key(s[0]) >= key(rest[0]);
      [s[0]] + rest
  }

  /** The position `Insert` gives `x` in `s`: the first element whose key
      is not larger than x's key, or the end. */
  function Slot<T>(x: T, s: seq<T>, key: T -> real): (k: nat)
    ensures k <= |s|
  {
    if |s| == 0 || key(x) >= key(s[0]) then 0 else 1 + Slot(x, s[1..], key)
  }

  /** `x` lands behind every element with a strictly larger key and in
      front of the rest, so among equal keys the new element comes first. */
  lemma {:induction false} InsertPlaces<T>(x: T, s: seq<T>, key: T -> real)
    requires Nonincreasing(s, key)
    ensures var k := Slot(x, s, key);
      && Insert(x, s, key) == s[..k] + [x] + s[k..]
      && (forall i :: 0 <= i < k ==> key(s[i]) > key(x))
      && (forall i :: k <= i < |s| ==> key(s[i]) <= key(x))
  {
    InsertSplits(x, s, key);
    SlotKeys(x, s, key);
  }

  lemma {:induction false} InsertSplits<T>(x: T, s: seq<T>, key: T -> real)
    requires Nonincreasing(s, key)
    ensures var k := Slot(x, s, key); Insert(x, s, key) == s[..k] + [x] + s[k..]
  {
    if |s| > 0 && key(x) < key(s[0]) {
      InsertSplits(x, s[1..], key);
      assert s == [s[0]] + s[1..];
      ConsSplit(s[0], s[1..], x, Slot(x, s[1..], key));
    }
  }

  /** Splitting after slot k commutes with putting `a` in front. */
  lemma ConsSplit<T>(a: T, t: seq<T>, x: T, k: nat)
    requires k <= |t|
    ensures [a] + (t[..k] + [x] + t[k..]) == ([a] + t)[..k + 1] + [x] + ([a] + t)[k + 1..]
  {
    assert ([a] + t)[..k + 1] == [a] + t[..k];
    assert ([a] + t)[k + 1..] == t[k..];
  }

  lemma {:induction false} SlotKeys<T>(x: T, s: seq<T>, key: T -> real)
    requires Nonincreasing(s, key)
    ensures var k := Slot(x, s, key);
      && (forall i :: 0 <= i < k ==> key(s[i]) > key(x))
      && (forall i :: k <= i < |s| ==> key(s[i]) <= key(x))
  {
    if |s| > 0 && key(x) < key(s[0]) {
      SlotKeys(x, s[1..], key);
      var k := Slot(x, s, key);
      forall i | 0 < i < k ensures key(s[i]) > key(x) {
        assert s[i] == s[1..][i - 1];
      }
      forall i | k <= i < |s| ensures key(s[i]) <= key(x) {
        assert s[i] == s[1..][i - 1];
      }
    }
  }

  /** The records of `s` rearranged into descending key order. */
  function SortDesc<T>(s: seq<T>, key: T -> real): (r: seq<T>)
    ensures Nonincreasing(r, key)
    ensures multiset(r) == multiset(s)
    ensures |r| == |s|
  {
    if |s| == 0 then []
    else
      assert s == [s[0]] + s[1..];
      Insert(s[0], SortDesc(s[1..], key), key)
  }
}
