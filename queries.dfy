/** The query shapes the workflow's endpoints use on the store: a filtered scan of one
    table in id order, and an OFFSET/LIMIT window over its rows, with the rules of the
    default SQLite store (a negative offset counts as zero, a negative limit as none). */
module Queries {

  /** The rows of table `m` with id below `n` that satisfy `keep`, in ascending id order. */
  function Collect<T>(m: map<int, T>, keep: T -> bool, n: int): (s: seq<T>)
    ensures |s| <= if n < 0 then 0 else n
    decreases n
  {
    if n <= 0 then []
    else Collect(m, keep, n - 1) + (if n - 1 in m && keep(m[n - 1]) then [m[n - 1]] else [])
  }

  /** A row is collected exactly when some id below `n` holds it and it satisfies `keep`. */
  lemma {:induction false} CollectBelow<T>(m: map<int, T>, keep: T -> bool, n: int, x: T)
    ensures x in Collect(m, keep, n) <==> exists k :: 0 <= k < n && k in m && m[k] == x && keep(x)
    decreases n
  {
    if n > 0 {
      CollectBelow(m, keep, n - 1, x);
    }
  }

  /** In a table whose rows are stored under their own key, all below `n`, a row is
      collected exactly when it is stored and satisfies `keep`. */
  lemma CollectKeyed<T>(m: map<int, T>, key: T -> int, keep: T -> bool, n: int, x: T)
    requires forall k :: k in m ==> 0 <= k < n && key(m[k]) == k
    ensures x in Collect(m, keep, n) <==> key(x) in m && m[key(x)] == x && keep(x)
  {
    CollectBelow(m, keep, n, x);
    if key(x) in m && m[key(x)] == x && keep(x) {
      var k := key(x);
      assert 0 <= k < n && k in m && m[k] == x && keep(x);
    }
    if x in Collect(m, keep, n) {
      var k :| 0 <= k < n && k in m && m[k] == x && keep(x);
      assert key(x) == k;
    }
  }

  /** A scan that no row below `n` satisfies is empty. */
  lemma {:induction false} CollectNone<T>(m: map<int, T>, keep: T -> bool, n: int)
    requires forall k :: 0 <= k < n && k in m ==> !keep(m[k])
    ensures Collect(m, keep, n) == []
    decreases n
  {
    if n > 0 {
      CollectNone(m, keep, n - 1);
    }
  }

  /** When at most one row satisfies `keep`, the scan holds at most one row. */
  lemma {:induction false} CollectAtMostOne<T>(m: map<int, T>, keep: T -> bool, n: int)
    requires forall j, k :: j in m && k in m && keep(m[j]) && keep(m[k]) ==> j == k
    ensures |Collect(m, keep, n)| <= 1
    decreases n
  {
    if n > 0 {
      if n - 1 in m && keep(m[n - 1]) {
        CollectNone(m, keep, n - 1);
      } else {
        CollectAtMostOne(m, keep, n - 1);
      }
    }
  }

  /** The first row a window keeps under OFFSET `skip`. */
  function Offset(skip: int): nat {
    if skip < 0 then 0 else skip
  }

  /** OFFSET `skip` LIMIT `limit` applied to `s`. */
  function Window<T>(s: seq<T>, skip: int, limit: int): (w: seq<T>)
    ensures var rest := if Offset(skip) <= |s| then |s| - Offset(skip) else 0;
            |w| == if 0 <= limit < rest then limit else rest
    ensures forall i :: 0 <= i < |w| ==> Offset(skip) + i < |s| && w[i] == s[Offset(skip) + i]
    ensures forall x :: x in w ==> x in s
  {
    var lo := if Offset(skip) <= |s| then Offset(skip) else |s|;
    var hi := if 0 <= limit && lo + limit <= |s| then lo + limit else |s|;
    s[lo..hi]
  }
}
