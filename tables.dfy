/** Generic operations on the rows of a table, as the SQL queries of the
    storage layer use them: first matching row, filtering, ordering. */
module Tables {
  import opened Wrappers

  /** The first row satisfying `p`, as `const [row] = await db.select()...where(...)` returns it. */
  function First<T>(rows: seq<T>, p: T -> bool): (r: Option<T>)
    ensures r.None? <==> forall k :: 0 <= k < |rows| ==> !p(rows[k])
    ensures r.Some? ==> exists k :: 0 <= k < |rows| && rows[k] == r.value && p(r.value)
                          && forall j :: 0 <= j < k ==> !p(rows[j])
  {
    if rows == [] then None
    else if p(rows[0]) then Some(rows[0])
    else
      var r := First(rows[1..], p);
      assert forall k :: 1 <= k < |rows| ==> rows[1..][k - 1] == rows[k];
      r
  }

  /** When at most one row satisfies `p`, `First` returns that row. */
  lemma {:induction false} FirstUnique<T>(rows: seq<T>, p: T -> bool, k: nat)
    requires k < |rows| && p(rows[k])
    requires forall i, j :: 0 <= i < j < |rows| && p(rows[i]) ==> !p(rows[j])
    ensures First(rows, p) == Some(rows[k])
  {
    if k > 0 {
      assert !p(rows[0]);
      FirstUnique(rows[1..], p, k - 1);
    }
  }

  /** Two tables that agree on which rows match, and on the matching rows themselves,
      give the same first match. */
  lemma {:induction false} FirstPointwise<T>(a: seq<T>, b: seq<T>, p: T -> bool)
    requires |a| == |b|
    requires forall k :: 0 <= k < |a| ==> p(a[k]) == p(b[k]) && (p(a[k]) ==> a[k] == b[k])
    ensures First(a, p) == First(b, p)
  {
    if a != [] && !p(a[0]) {
      FirstPointwise(a[1..], b[1..], p);
    }
  }

  /** When a table is rewritten so that the same rows match and each matching row `x`
      becomes `f(x)`, the first match becomes `f` of the old first match. */
  lemma {:induction false} FirstRewritten<T>(a: seq<T>, b: seq<T>, p: T -> bool, f: T -> T)
    requires |a| == |b|
    requires forall k :: 0 <= k < |a| ==> p(a[k]) == p(b[k]) && (p(a[k]) ==> b[k] == f(a[k]))
    ensures First(b, p).None? <==> First(a, p).None?
    ensures First(a, p).Some? ==> First(b, p) == Some(f(First(a, p).value))
  {
    if a != [] && !p(a[0]) {
      FirstRewritten(a[1..], b[1..], p, f);
    }
  }

  /** A row appended after the table that does not match leaves the first match as is. */
  lemma {:induction false} FirstAppendMiss<T>(rows: seq<T>, x: T, p: T -> bool)
    requires !p(x)
    ensures First(rows + [x], p) == First(rows, p)
  {
    if rows == [] {
      assert First([x], p) == First([x][1..], p);
    } else if !p(rows[0]) {
      assert (rows + [x])[1..] == rows[1..] + [x];
      FirstAppendMiss(rows[1..], x, p);
    }
  }

  /** The rows satisfying `p`, in table order (a `WHERE` clause). */
  function Filter<T>(rows: seq<T>, p: T -> bool): (r: seq<T>)
    ensures forall k :: 0 <= k < |r| ==> r[k] in rows && p(r[k])
    ensures forall k :: 0 <= k < |rows| && p(rows[k]) ==> rows[k] in r
    ensures |r| <= |rows|
  {
    if rows == [] then []
    else if p(rows[0]) then [rows[0]] + Filter(rows[1..], p)
    else Filter(rows[1..], p)
  }

  lemma {:induction false} FilterAppend<T>(a: seq<T>, b: seq<T>, p: T -> bool)
    ensures Filter(a + b, p) == Filter(a, p) + Filter(b, p)
  {
    if a == [] {
      assert a + b == b;
    } else {
      assert (a + b)[1..] == a[1..] + b;
      FilterAppend(a[1..], b, p);
    }
  }

  lemma {:induction false} FilterNone<T>(rows: seq<T>, p: T -> bool)
    requires forall k :: 0 <= k < |rows| ==> !p(rows[k])
    ensures Filter(rows, p) == []
  {
    if rows != [] {
      FilterNone(rows[1..], p);
    }
  }

  lemma {:induction false} FilterAll<T>(rows: seq<T>, p: T -> bool)
    requires forall k :: 0 <= k < |rows| ==> p(rows[k])
    ensures Filter(rows, p) == rows
  {
    if rows != [] {
      FilterAll(rows[1..], p);
    }
  }

  lemma SameElements<T>(a: seq<T>, b: seq<T>)
    requires multiset(a) == multiset(b)
    ensures forall k :: 0 <= k < |a| ==> a[k] in b
  {
    forall k | 0 <= k < |a| ensures a[k] in b {
      assert a[k] in multiset(a);
    }
  }

  ghost predicate SortedBy<T>(s: seq<T>, key: T -> int) {
    forall i, j :: 0 <= i < j < |s| ==> key(s[i]) <= key(s[j])
  }

  /** Inserts `x` after every element whose key is not larger than its own. */
  function InsertBy<T>(x: T, s: seq<T>, key: T -> int): (r: seq<T>)
    requires SortedBy(s, key)
    ensures SortedBy(r, key)
    ensures multiset(r) == multiset(s) + multiset{x}
  {
    if s == [] then [x]
    else if key(x) < key(s[0]) then [x] + s
    else
      var rest := InsertBy(x, s[1..], key);
      assert s == [s[0]] + s[1..];
      assert forall k :: 0 <= k < |rest| ==> key(s[0]) <= key(rest[k]) by {
        forall k | 0 <= k < |rest| ensures key(s[0]) <= key(rest[k]) {
          var y := rest[k];
          assert y in multiset(rest);
          if y != x {
            assert y in multiset(s[1..]);
            var i :| 0 <= i < |s[1..]| && s[1..][i] == y;
            assert s[i + 1] == y;
          }
        }
      }
      [s[0]] + rest
  }

  /** Stable insertion sort by `key` (an `ORDER BY`; rows with equal keys keep table order). */
  function SortBy<T>(s: seq<T>, key: T -> int): (r: seq<T>)
    ensures SortedBy(r, key)
    ensures multiset(r) == multiset(s)
    ensures |r| == |s|
  {
    if s == [] then []
    else
      var r := InsertBy(s[|s| - 1], SortBy(s[..|s| - 1], key), key);
      assert s == s[..|s| - 1] + [s[|s| - 1]];
      assert |multiset(r)| == |multiset(s)|;
      r
  }

  lemma {:induction false} InsertAtEnd<T>(x: T, s: seq<T>, key: T -> int)
    requires SortedBy(s, key)
    requires forall k :: 0 <= k < |s| ==> key(s[k]) <= key(x)
    ensures InsertBy(x, s, key) == s + [x]
  {
    if s != [] {
      InsertAtEnd(x, s[1..], key);
    }
  }

  /** Sorting a sequence that is already in key order changes nothing. */
  lemma {:induction false} SortBySorted<T>(s: seq<T>, key: T -> int)
    requires SortedBy(s, key)
    ensures SortBy(s, key) == s
  {
    if s != [] {
      var init := s[..|s| - 1];
      SortBySorted(init, key);
      InsertAtEnd(s[|s| - 1], init, key);
      assert init + [s[|s| - 1]] == s;
    }
  }
}
