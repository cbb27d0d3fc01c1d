/** The sort the model uses wherever pandas sorts (`sort_values`, group keys,
    `sort_index`): an insertion sort on a key, ascending or descending, under
    the total preorder `Values.Leq`. */
module Sorting {
  import opened Values

  /** `a` may stand before `b` in the requested direction. */
  predicate Before<T>(a: T, b: T, key: T -> Value, asc: bool) {
    if asc then Leq(key(a), key(b)) else Leq(key(b), key(a))
  }

  predicate SortedBy<T>(s: seq<T>, key: T -> Value, asc: bool) {
    forall i, j :: 0 <= i < j < |s| ==> Before(s[i], s[j], key, asc)
  }

  lemma BeforeTotal<T>(a: T, b: T, key: T -> Value, asc: bool)
    ensures Before(a, b, key, asc) || Before(b, a, key, asc)
  {
    LeqTotal(key(a), key(b));
  }

  lemma BeforeTrans<T>(a: T, b: T, c: T, key: T -> Value, asc: bool)
    requires Before(a, b, key, asc) && Before(b, c, key, asc)
    ensures Before(a, c, key, asc)
  {
    if asc { LeqTrans(key(a), key(b), key(c)); } else { LeqTrans(key(c), key(b), key(a)); }
  }

  /** Inserts `x` before the first element it may precede; equal keys keep
      `x` first, which makes `SortBy` stable. */
  function Insert<T>(x: T, s: seq<T>, key: T -> Value, asc: bool): seq<T>
    decreases |s|
  {
    if |s| == 0 then [x]
    else if Before(x, s[0], key, asc) then [x] + s
    else [s[0]] + Insert(x, s[1..], key, asc)
  }

  function SortBy<T>(s: seq<T>, key: T -> Value, asc: bool): seq<T>
    decreases |s|
  {
    if |s| == 0 then [] else Insert(s[0], SortBy(s[1..], key, asc), key, asc)
  }

  lemma {:induction false} InsertElements<T>(x: T, s: seq<T>, key: T -> Value, asc: bool)
    ensures multiset(Insert(x, s, key, asc)) == multiset(s) + multiset{x}
    ensures |Insert(x, s, key, asc)| == |s| + 1
    decreases |s|
  {
    if |s| > 0 && !Before(x, s[0], key, asc) {
      InsertElements(x, s[1..], key, asc);
      assert s == [s[0]] + s[1..];
    }
  }

  lemma {:induction false} InsertSorted<T>(x: T, s: seq<T>, key: T -> Value, asc: bool)
    requires SortedBy(s, key, asc)
    ensures SortedBy(Insert(x, s, key, asc), key, asc)
    decreases |s|
  {
    if |s| == 0 {
    } else if Before(x, s[0], key, asc) {
      var r := [x] + s;
      forall i, j | 0 <= i < j < |r| ensures Before(r[i], r[j], key, asc) {
        if i == 0 && j > 1 { BeforeTrans(x, s[0], s[j - 1], key, asc); }
      }
    } else {
      BeforeTotal(x, s[0], key, asc);
      InsertSorted(x, s[1..], key, asc);
      InsertElements(x, s[1..], key, asc);
      var rest := Insert(x, s[1..], key, asc);
      forall j | 0 <= j < |rest| ensures Before(s[0], rest[j], key, asc) {
        assert rest[j] in multiset(s[1..]) + multiset{x};
        if rest[j] != x {
          assert rest[j] in s[1..];
          var m :| 0 <= m < |s[1..]| && s[1..][m] == rest[j];
          assert s[m + 1] == rest[j];
        }
      }
    }
  }

  /** the result is ordered */
  lemma {:induction false} SortBySorted<T>(s: seq<T>, key: T -> Value, asc: bool)
    ensures SortedBy(SortBy(s, key, asc), key, asc)
    decreases |s|
  {
    if |s| > 0 {
      SortBySorted(s[1..], key, asc);
      InsertSorted(s[0], SortBy(s[1..], key, asc), key, asc);
    }
  }

  /** the result is a permutation of the input */
  lemma {:induction false} SortByPermutation<T>(s: seq<T>, key: T -> Value, asc: bool)
    ensures multiset(SortBy(s, key, asc)) == multiset(s)
    ensures |SortBy(s, key, asc)| == |s|
    decreases |s|
  {
    if |s| > 0 {
      SortByPermutation(s[1..], key, asc);
      InsertElements(s[0], SortBy(s[1..], key, asc), key, asc);
      assert s == [s[0]] + s[1..];
    }
  }

  predicate Distinct<T(==)>(s: seq<T>) {
    forall i, j :: 0 <= i < j < |s| ==> s[i] != s[j]
  }

  lemma {:induction false} InsertDistinct<T>(x: T, s: seq<T>, key: T -> Value, asc: bool)
    requires Distinct(s) && x !in s
    ensures Distinct(Insert(x, s, key, asc))
    decreases |s|
  {
    if |s| > 0 && !Before(x, s[0], key, asc) {
      InsertDistinct(x, s[1..], key, asc);
      InsertElements(x, s[1..], key, asc);
      var rest := Insert(x, s[1..], key, asc);
      forall j | 0 <= j < |rest| ensures rest[j] != s[0] {
        assert rest[j] in multiset(s[1..]) + multiset{x};
        if rest[j] != x {
          assert rest[j] in s[1..];
          var m :| 0 <= m < |s[1..]| && s[1..][m] == rest[j];
          assert s[m + 1] == rest[j];
        }
      }
    }
  }

  lemma {:induction false} SortByDistinct<T>(s: seq<T>, key: T -> Value, asc: bool)
    requires Distinct(s)
    ensures Distinct(SortBy(s, key, asc))
    decreases |s|
  {
    if |s| > 0 {
      SortByDistinct(s[1..], key, asc);
      SortByPermutation(s[1..], key, asc);
      forall m | 0 <= m < |s| - 1 ensures s[1..][m] != s[0] {
        assert s[1..][m] == s[m + 1];
      }
      assert s[0] !in multiset(SortBy(s[1..], key, asc));
      InsertDistinct(s[0], SortBy(s[1..], key, asc), key, asc);
    }
  }
}
