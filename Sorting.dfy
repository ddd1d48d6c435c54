// A stable sort by a text key, ascending or descending: the model of
// `Array.prototype.sort` with the comparators the views pass it (date strings
// newest first, round labels in code-unit order).

module Sorting {
  import opened Collections
  import opened Text

  /** `x` may stand before `y`: its key is not after `y`'s in the chosen direction. */
  predicate InOrder<T>(x: T, y: T, key: T -> string, descending: bool)
  {
    if descending then StrLe(key(y), key(x)) else StrLe(key(x), key(y))
  }

  ghost predicate Sorted<T>(s: seq<T>, key: T -> string, descending: bool)
  {
    forall i, j :: 0 <= i < j < |s| ==> InOrder(s[i], s[j], key, descending)
  }

  /** Inserts `x` before the first element it may precede; ties keep `x` first. */
  function Insert<T>(x: T, s: seq<T>, key: T -> string, descending: bool): (r: seq<T>)
    ensures multiset(r) == multiset(s) + multiset{x}
    ensures |r| == |s| + 1
  {
    if s == [] || InOrder(x, s[0], key, descending) then [x] + s
    else
      var rest := Insert(x, s[1..], key, descending);
      assert s == [s[0]] + s[1..];
      [s[0]] + rest
  }

  /** Insertion sort; the earlier of two equal keys stays first, as in a stable `sort`. */
  function Sort<T>(s: seq<T>, key: T -> string, descending: bool): (r: seq<T>)
    ensures multiset(r) == multiset(s)
    ensures |r| == |s|
  {
    if s == [] then []
    else
      var r := Insert(s[0], Sort(s[1..], key, descending), key, descending);
      assert s == [s[0]] + s[1..];
      r
  }

  lemma InOrderTotal<T>(x: T, y: T, key: T -> string, descending: bool)
    ensures InOrder(x, y, key, descending) || InOrder(y, x, key, descending)
  {
    StrLeTotal(key(x), key(y));
  }

  lemma InOrderTransitive<T>(x: T, y: T, z: T, key: T -> string, descending: bool)
    requires InOrder(x, y, key, descending) && InOrder(y, z, key, descending)
    ensures InOrder(x, z, key, descending)
  {
    if descending {
      StrLeTransitive(key(z), key(y), key(x));
    } else {
      StrLeTransitive(key(x), key(y), key(z));
    }
  }

  lemma {:induction false} InsertSorted<T>(x: T, s: seq<T>, key: T -> string, descending: bool)
    requires Sorted(s, key, descending)
    ensures Sorted(Insert(x, s, key, descending), key, descending)
  {
    var r := Insert(x, s, key, descending);
    if s == [] {
    } else if InOrder(x, s[0], key, descending) {
      forall i, j | 0 <= i < j < |r| ensures InOrder(r[i], r[j], key, descending) {
        if i == 0 && j > 1 {
          InOrderTransitive(x, s[0], s[j - 1], key, descending);
        }
      }
    } else {
      InOrderTotal(x, s[0], key, descending);
      var rest := Insert(x, s[1..], key, descending);
      InsertSorted(x, s[1..], key, descending);
      assert r == [s[0]] + rest;
      forall k | 0 <= k < |rest| ensures InOrder(s[0], rest[k], key, descending) {
        assert rest[k] in multiset(rest);
        assert rest[k] == x || rest[k] in multiset(s[1..]);
        if rest[k] != x {
          var m :| 0 <= m < |s[1..]| && s[1..][m] == rest[k];
          assert s[m + 1] == rest[k];
        }
      }
      forall i, j | 0 <= i < j < |r| ensures InOrder(r[i], r[j], key, descending) {
        if i == 0 {
          assert r[j] == rest[j - 1];
        } else {
          assert r[i] == rest[i - 1] && r[j] == rest[j - 1];
        }
      }
    }
  }

  /** The result of `Sort` is ordered by the key. */
  lemma {:induction false} SortSorted<T>(s: seq<T>, key: T -> string, descending: bool)
    ensures Sorted(Sort(s, key, descending), key, descending)
  {
    if s != [] {
      SortSorted(s[1..], key, descending);
      InsertSorted(s[0], Sort(s[1..], key, descending), key, descending);
    }
  }

  /** Sorting a list that is already in order returns it unchanged. */
  lemma {:induction false} SortOfSorted<T>(s: seq<T>, key: T -> string, descending: bool)
    requires Sorted(s, key, descending)
    ensures Sort(s, key, descending) == s
  {
    if s != [] {
      assert Sorted(s[1..], key, descending) by {
        forall i, j | 0 <= i < j < |s[1..]| ensures InOrder(s[1..][i], s[1..][j], key, descending) {
          assert s[1..][i] == s[i + 1] && s[1..][j] == s[j + 1];
        }
      }
      SortOfSorted(s[1..], key, descending);
      if |s| > 1 {
        assert InOrder(s[0], s[1], key, descending);
      }
    }
  }

  lemma SortedTail<T>(s: seq<T>, key: T -> string, descending: bool)
    requires s != [] && Sorted(s, key, descending)
    ensures Sorted(s[1..], key, descending)
  {
    forall i, j | 0 <= i < j < |s[1..]| ensures InOrder(s[1..][i], s[1..][j], key, descending) {
      assert s[1..][i] == s[i + 1] && s[1..][j] == s[j + 1];
    }
  }

  lemma SortedCons<T>(x: T, rest: seq<T>, key: T -> string, descending: bool)
    requires Sorted(rest, key, descending)
    requires forall k :: 0 <= k < |rest| ==> InOrder(x, rest[k], key, descending)
    ensures Sorted([x] + rest, key, descending)
  {
    var r := [x] + rest;
    forall i, j | 0 <= i < j < |r| ensures InOrder(r[i], r[j], key, descending) {
      if i == 0 {
        assert r[j] == rest[j - 1];
      } else {
        assert r[i] == rest[i - 1] && r[j] == rest[j - 1];
      }
    }
  }

  /** The head of a sorted list may stand before every element of the tail. */
  lemma HeadFirst<T>(s: seq<T>, y: T, key: T -> string, descending: bool)
    requires s != [] && Sorted(s, key, descending) && y in s[1..]
    ensures InOrder(s[0], y, key, descending)
  {
    var m :| 0 <= m < |s[1..]| && s[1..][m] == y;
    assert s[m + 1] == y;
  }

  /** Filtering keeps the survivors in the order they had. */
  lemma {:induction false} FilterSorted<T>(s: seq<T>, p: T -> bool, key: T -> string, descending: bool)
    requires Sorted(s, key, descending)
    ensures Sorted(Filter(s, p), key, descending)
  {
    if s != [] {
      SortedTail(s, key, descending);
      FilterSorted(s[1..], p, key, descending);
      FilterCons(s[0], s[1..], p);
      assert [s[0]] + s[1..] == s;
      var rest := Filter(s[1..], p);
      if p(s[0]) {
        FilterMembers(s[1..], p);
        forall k | 0 <= k < |rest| ensures InOrder(s[0], rest[k], key, descending) {
          HeadFirst(s, rest[k], key, descending);
        }
        SortedCons(s[0], rest, key, descending);
      }
    }
  }
}
