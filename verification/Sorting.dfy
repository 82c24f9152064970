/** The stable sort of JavaScript's arrays, by an integer key, ascending. */
module Sorting {
  import opened Prelude

  ghost predicate Sorted<T(!new)>(s: seq<T>, key: T -> int) {
    forall i, j :: 0 <= i < j < |s| ==> key(s[i]) <= key(s[j])
  }

  /** `x` goes behind every element whose key is not greater, so equal keys keep their order. */
  function Insert<T>(s: seq<T>, x: T, key: T -> int): (r: seq<T>)
    ensures multiset(r) == multiset(s) + multiset{x}
  {
    if s == [] then [x]
    else if key(s[|s| - 1]) <= key(x) then s + [x]
    else
      assert s == s[..|s| - 1] + [s[|s| - 1]];
      Insert(s[..|s| - 1], x, key) + [s[|s| - 1]]
  }

  function Sort<T>(s: seq<T>, key: T -> int): (r: seq<T>)
    ensures multiset(r) == multiset(s)
  {
    if s == [] then []
    else
      assert s == s[..|s| - 1] + [s[|s| - 1]];
      Insert(Sort(s[..|s| - 1], key), s[|s| - 1], key)
  }

  lemma {:induction false} InsertSorted<T(!new)>(s: seq<T>, x: T, key: T -> int)
    requires Sorted(s, key)
    ensures Sorted(Insert(s, x, key), key)
  {
    if s != [] && key(s[|s| - 1]) > key(x) {
      var front := s[..|s| - 1];
      InsertSorted(front, x, key);
      var r := Insert(front, x, key);
      forall i | 0 <= i < |r| ensures key(r[i]) <= key(s[|s| - 1]) {
        assert r[i] in multiset(r);
        assert r[i] in multiset(front) || r[i] == x;
        assert r[i] in front || r[i] == x;
      }
    }
  }

  lemma {:induction false} SortSorts<T(!new)>(s: seq<T>, key: T -> int)
    ensures Sorted(Sort(s, key), key)
  {
    if s != [] {
      SortSorts(s[..|s| - 1], key);
      InsertSorted(Sort(s[..|s| - 1], key), s[|s| - 1], key);
    }
  }

  lemma {:induction false} SortedFront<T(!new)>(s: seq<T>, key: T -> int)
    requires s != [] && Sorted(s, key)
    ensures Sorted(s[..|s| - 1], key)
    ensures |s| > 1 ==> key(s[|s| - 2]) <= key(s[|s| - 1])
  {
    var front := s[..|s| - 1];
    forall i, j | 0 <= i < j < |front| ensures key(front[i]) <= key(front[j]) {
      assert front[i] == s[i] && front[j] == s[j];
    }
  }

  /** Sorting an ascending sequence leaves it alone. */
  lemma {:induction false} SortKeepsSorted<T(!new)>(s: seq<T>, key: T -> int)
    requires Sorted(s, key)
    ensures Sort(s, key) == s
  {
    if s != [] {
      SortedFront(s, key);
      SortKeepsSorted(s[..|s| - 1], key);
      assert s == s[..|s| - 1] + [s[|s| - 1]];
    }
  }

  lemma SameElements<T>(s: seq<T>, key: T -> int)
    ensures |Sort(s, key)| == |s|
    ensures forall x :: x in Sort(s, key) <==> x in s
  {
    var r := Sort(s, key);
    assert |multiset(r)| == |multiset(s)|;
    forall x ensures x in r <==> x in s {
      assert x in r <==> x in multiset(r);
      assert x in s <==> x in multiset(s);
    }
  }

  // ------------------------------------------------------------------ the first that meets a condition, sorted or not

  /** The element that meets `p` with the least key, the first of those when several have it. */
  function Earliest<T>(s: seq<T>, key: T -> int, p: T -> bool): (r: Option<T>)
    ensures r.None? <==> forall i :: 0 <= i < |s| ==> !p(s[i])
    ensures r.Some? ==> exists i :: 0 <= i < |s| && s[i] == r.value && p(s[i]) && IsEarliest(s, key, p, i)
  {
    if s == [] then None
    else
      var front, x := s[..|s| - 1], s[|s| - 1];
      var e := Earliest(front, key, p);
      if p(x) && (e.None? || key(x) < key(e.value)) then
        assert IsEarliest(s, key, p, |s| - 1);
        Some(x)
      else
        assert e.Some? ==> forall i :: 0 <= i < |front| && IsEarliest(front, key, p, i) && front[i] == e.value ==>
          s[i] == e.value && IsEarliest(s, key, p, i);
        e
  }

  /** No other that meets `p` has a lesser key, and none before it an equal one. */
  ghost predicate IsEarliest<T>(s: seq<T>, key: T -> int, p: T -> bool, i: nat)
    requires i < |s|
  {
    forall j :: 0 <= j < |s| && p(s[j]) ==> key(s[i]) < key(s[j]) || (key(s[i]) == key(s[j]) && i <= j)
  }

  lemma {:induction false} FirstAppend<T>(s: seq<T>, x: T, p: T -> bool)
    ensures FirstSuch(s + [x], p) ==
            if FirstSuch(s, p).Some? then FirstSuch(s, p) else if p(x) then Some(x) else None
  {
    if s != [] && !p(s[0]) {
      FirstAppend(s[1..], x, p);
      assert (s + [x])[1..] == s[1..] + [x];
    }
  }

  lemma {:induction false} FirstInserted<T(!new)>(s: seq<T>, x: T, key: T -> int, p: T -> bool)
    requires Sorted(s, key)
    ensures var e := FirstSuch(s, p);
            FirstSuch(Insert(s, x, key), p) == if p(x) && (e.None? || key(x) < key(e.value)) then Some(x) else e
  {
    if s != [] {
      var front, l := s[..|s| - 1], s[|s| - 1];
      assert s == front + [l];
      if key(l) <= key(x) {
        FirstAppend(s, x, p);
        var e := FirstSuch(s, p);
        if e.Some? {
          var i :| 0 <= i < |s| && s[i] == e.value;
        }
      } else {
        FirstInserted(front, x, key, p);
        FirstAppend(Insert(front, x, key), l, p);
        FirstAppend(front, l, p);
      }
    }
  }

  /** The stable sort brings the earliest to the front of those that meet the condition. */
  lemma {:induction false} FirstOfSorted<T(!new)>(s: seq<T>, key: T -> int, p: T -> bool)
    ensures FirstSuch(Sort(s, key), p) == Earliest(s, key, p)
  {
    if s != [] {
      var front := s[..|s| - 1];
      FirstOfSorted(front, key, p);
      SortSorts(front, key);
      hide Insert;
      hide FirstSuch;
      FirstInserted(Sort(front, key), s[|s| - 1], key, p);
    }
  }
}
