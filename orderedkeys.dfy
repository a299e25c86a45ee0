/** The ascending enumeration of a finite set of integers, the order in
    which Python's `sorted` visits the keys of a dictionary with integer keys. */
module OrderedKeys {

  /** The least element of a non-empty finite set. */
  ghost function Least(s: set<int>): (m: int)
    requires s != {}
    ensures m in s && forall x :: x in s ==> m <= x
    decreases |s|
  {
    assert (forall z :: z !in s) ==> s == {};
    var y :| y in s;
    var r := s - {y};
    if r == {} then
      assert forall x :: x in s ==> x == y || x in r;
      y
    else
      var m := Least(r);
      assert forall x :: x in s ==> x == y || x in r;
      if y < m then y else m
  }

  /** The elements of a finite set in ascending order. */
  ghost function SortedKeys(s: set<int>): seq<int>
    decreases |s|
  {
    if s == {} then [] else [Least(s)] + SortedKeys(s - {Least(s)})
  }

  /** SortedKeys lists every element of the set, and only those. */
  lemma {:induction false} SortedKeysMembers(s: set<int>)
    ensures |SortedKeys(s)| == |s|
    ensures forall i :: 0 <= i < |SortedKeys(s)| ==> SortedKeys(s)[i] in s
    ensures forall x :: x in s ==> x in SortedKeys(s)
    decreases |s|
  {
    if s != {} {
      var m := Least(s);
      var rest := s - {m};
      SortedKeysMembers(rest);
      var tail := SortedKeys(rest);
      var ks := [m] + tail;
      assert SortedKeys(s) == ks;
      forall i | 0 <= i < |ks| ensures ks[i] in s {
        if i > 0 {
          assert ks[i] == tail[i - 1];
        }
      }
      forall x | x in s ensures x in ks {
        if x != m {
          assert x in rest;
        }
      }
    }
  }

  /** Putting an element below every element in front of an ascending
      sequence keeps it ascending. */
  lemma ConsIncreasing(m: int, tail: seq<int>)
    requires forall i, j :: 0 <= i < j < |tail| ==> tail[i] < tail[j]
    requires forall i :: 0 <= i < |tail| ==> m < tail[i]
    ensures forall i, j :: 0 <= i < j < |[m] + tail| ==> ([m] + tail)[i] < ([m] + tail)[j]
  {
    var ks := [m] + tail;
    forall i, j | 0 <= i < j < |ks| ensures ks[i] < ks[j] {
      assert ks[j] == tail[j - 1];
      if i > 0 {
        assert ks[i] == tail[i - 1];
      }
    }
  }

  /** SortedKeys is strictly ascending. */
  lemma {:induction false} SortedKeysIncreasing(s: set<int>)
    ensures forall i, j :: 0 <= i < j < |SortedKeys(s)| ==> SortedKeys(s)[i] < SortedKeys(s)[j]
    decreases |s|
  {
    if s != {} {
      var m := Least(s);
      var rest := s - {m};
      SortedKeysIncreasing(rest);
      SortedKeysMembers(rest);
      var tail := SortedKeys(rest);
      forall i | 0 <= i < |tail| ensures m < tail[i] {
        assert tail[i] in rest;
      }
      ConsIncreasing(m, tail);
      assert SortedKeys(s) == [m] + tail;
    }
  }

  lemma SortedKeysProperties(s: set<int>)
    ensures |SortedKeys(s)| == |s|
    ensures forall i :: 0 <= i < |SortedKeys(s)| ==> SortedKeys(s)[i] in s
    ensures forall x :: x in s ==> x in SortedKeys(s)
    ensures forall i, j :: 0 <= i < j < |SortedKeys(s)| ==> SortedKeys(s)[i] < SortedKeys(s)[j]
  {
    SortedKeysMembers(s);
    SortedKeysIncreasing(s);
  }

  /** The enumeration starts with the least element. */
  lemma SortedKeysStep(s: set<int>, n: int)
    requires s != {} && n in s && forall x :: x in s ==> n <= x
    ensures SortedKeys(s) == [n] + SortedKeys(s - {n})
  {
    assert Least(s) == n;
  }
}
