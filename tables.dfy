/** The database rows the points routes read and write, and the query operations they use:
    equality filters, PostgREST's `.single()`, ordering by a column (largest first) and
    `.limit(n)`. Each table is a sequence of rows in storage order. */
module Tables {
  import opened Common

  datatype User = User(id: string, twitterId: string, handle: string, points: int, updatedAt: string)

  /** A quest; `kind` is the `type` column (`follow`, `post`, `reply`, `repost`, `drip_action`). */
  datatype Quest = Quest(id: string, title: string, kind: string, points: int, active: bool)

  /** A `user_quests` row: one completed quest of one user. */
  datatype Completion = Completion(userId: string, questId: string)

  /** A `posts` row; `awardedAt` is the award time as a comparable number. */
  datatype Post = Post(id: string, userId: string, content: string, awardedAt: int, bonusType: string)

  /** A `drip_sync_log` row. */
  datatype DripLog = DripLog(userId: string, actionType: string, questId: string, points: int, success: bool)

  /** `.single()`: the row when exactly one row matches; no data (an error) for none or several. */
  function Single<T>(rows: seq<T>): (r: Option<T>)
    ensures r.Some? <==> |rows| == 1
    ensures r.Some? ==> r.value == rows[0]
  {
    if |rows| == 1 then Some(rows[0]) else None
  }

  /** The rows a filter keeps, in storage order (`FilterCounts`, `FilterSingleton`,
      `FilterAppend`). */
  function Filter<T(!new)>(rows: seq<T>, keep: T -> bool): (r: seq<T>)
    ensures |r| <= |rows|
    ensures forall x :: x in r <==> x in rows && keep(x)
    decreases |rows|
  {
    if rows == [] then [] else (if keep(rows[0]) then [rows[0]] else []) + Filter(rows[1..], keep)
  }

  /** Every kept row appears as often as it is stored, and no other row appears. */
  lemma {:induction false} FilterCounts<T(!new)>(rows: seq<T>, keep: T -> bool)
    ensures forall x :: multiset(Filter(rows, keep))[x] == if keep(x) then multiset(rows)[x] else 0
    decreases |rows|
  {
    if rows != [] {
      FilterCounts(rows[1..], keep);
      assert rows == [rows[0]] + rows[1..];
    }
  }

  /** Filtering one row keeps it exactly when the condition holds. */
  lemma FilterSingleton<T(!new)>(x: T, keep: T -> bool)
    ensures Filter([x], keep) == if keep(x) then [x] else []
  {
    assert [x][1..] == [];
  }

  /** Filtering distributes over concatenation. With `FilterSingleton` this pins the result down
      to the kept rows in storage order. */
  lemma {:induction false} FilterAppend<T(!new)>(a: seq<T>, b: seq<T>, keep: T -> bool)
    ensures Filter(a + b, keep) == Filter(a, keep) + Filter(b, keep)
    decreases |a|
  {
    if a == [] {
      assert a + b == b;
    } else {
      assert (a + b)[1..] == a[1..] + b;
      FilterAppend(a[1..], b, keep);
    }
  }

  /** A filter that keeps none of the rows returns no rows. */
  lemma {:induction false} FilterNone<T(!new)>(rows: seq<T>, keep: T -> bool)
    requires forall x :: x in rows ==> !keep(x)
    ensures Filter(rows, keep) == []
    decreases |rows|
  {
    if rows != [] {
      FilterNone(rows[1..], keep);
    }
  }

  /** Taking one row out of a table lowers the count of rows kept by one exactly when the
      filter keeps that row. */
  lemma FilterRemoveAt<T(!new)>(ys: seq<T>, k: nat, keep: T -> bool)
    requires k < |ys|
    ensures |Filter(ys, keep)| == |Filter(ys[..k] + ys[k + 1..], keep)| + (if keep(ys[k]) then 1 else 0)
  {
    assert ys == ys[..k] + ([ys[k]] + ys[k + 1..]);
    FilterAppend(ys[..k], [ys[k]] + ys[k + 1..], keep);
    FilterAppend([ys[k]], ys[k + 1..], keep);
    FilterAppend(ys[..k], ys[k + 1..], keep);
  }

  /** Taking one element out of a sequence takes one copy of it out of its multiset. */
  lemma MultisetRemoveAt<T>(ys: seq<T>, k: nat)
    requires k < |ys|
    ensures multiset(ys[..k] + ys[k + 1..]) == multiset(ys) - multiset{ys[k]}
  {
    assert ys == ys[..k] + [ys[k]] + ys[k + 1..];
  }

  /** How many rows satisfy a condition does not depend on the order of the rows. */
  lemma {:induction false} FilterCountPermutation<T(!new)>(xs: seq<T>, ys: seq<T>, keep: T -> bool)
    requires multiset(xs) == multiset(ys)
    ensures |Filter(xs, keep)| == |Filter(ys, keep)|
    decreases |xs|
  {
    if xs == [] {
      assert |ys| == |multiset(ys)| == 0;
    } else {
      assert xs[0] in multiset(ys);
      var k :| 0 <= k < |ys| && ys[k] == xs[0];
      var rest := ys[..k] + ys[k + 1..];
      MultisetRemoveAt(ys, k);
      assert xs == [xs[0]] + xs[1..];
      assert multiset(xs[1..]) == multiset(xs) - multiset{xs[0]};
      FilterCountPermutation(xs[1..], rest, keep);
      FilterRemoveAt(ys, k, keep);
    }
  }

  /** Largest key first. */
  ghost predicate SortedDesc<T>(xs: seq<T>, key: T -> int) {
    forall i, j :: 0 <= i < j < |xs| ==> key(xs[i]) >= key(xs[j])
  }

  lemma SortedCons<T>(h: T, t: seq<T>, key: T -> int)
    requires SortedDesc(t, key) && (t != [] ==> key(h) >= key(t[0]))
    ensures SortedDesc([h] + t, key)
  {
    var r := [h] + t;
    forall i, j | 0 <= i < j < |r| ensures key(r[i]) >= key(r[j]) {
      if i == 0 {
        assert r[j] == t[j - 1];
        if j > 1 {
          assert key(t[0]) >= key(t[j - 1]);
        }
      } else {
        assert r[i] == t[i - 1] && r[j] == t[j - 1];
      }
    }
  }

  /** The tail of an ordered list is ordered, and no larger than its head. */
  lemma SortedTail<T>(xs: seq<T>, key: T -> int)
    requires SortedDesc(xs, key) && xs != []
    ensures SortedDesc(xs[1..], key)
    ensures |xs| > 1 ==> key(xs[0]) >= key(xs[1])
    ensures xs == [xs[0]] + xs[1..]
  {
    forall i, j | 0 <= i < j < |xs[1..]| ensures key(xs[1..][i]) >= key(xs[1..][j]) {
      assert xs[1..][i] == xs[i + 1] && xs[1..][j] == xs[j + 1];
    }
  }

  /** Inserts `x` into a list ordered largest first, after every row with a larger key. */
  function InsertDesc<T>(x: T, xs: seq<T>, key: T -> int): seq<T>
    decreases |xs|
  {
    if xs == [] then [x]
    else if key(x) >= key(xs[0]) then [x] + xs
    else [xs[0]] + InsertDesc(x, xs[1..], key)
  }

  /** Insertion adds exactly `x`, and puts `x` or the old head first. */
  lemma {:induction false} InsertDescPermutes<T>(x: T, xs: seq<T>, key: T -> int)
    ensures multiset(InsertDesc(x, xs, key)) == multiset(xs) + multiset{x}
    ensures |InsertDesc(x, xs, key)| == |xs| + 1
    ensures InsertDesc(x, xs, key)[0] == x || (xs != [] && InsertDesc(x, xs, key)[0] == xs[0])
    decreases |xs|
  {
    if xs != [] && key(x) < key(xs[0]) {
      InsertDescPermutes(x, xs[1..], key);
      assert xs == [xs[0]] + xs[1..];
    }
  }

  /** Insertion into an ordered list keeps it ordered. */
  lemma {:induction false} InsertDescSorted<T>(x: T, xs: seq<T>, key: T -> int)
    requires SortedDesc(xs, key)
    ensures SortedDesc(InsertDesc(x, xs, key), key)
    decreases |xs|
  {
    if xs == [] {
    } else if key(x) >= key(xs[0]) {
      SortedCons(x, xs, key);
    } else {
      SortedTail(xs, key);
      InsertDescSorted(x, xs[1..], key);
      InsertDescPermutes(x, xs[1..], key);
      SortedCons(xs[0], InsertDesc(x, xs[1..], key), key);
    }
  }

  /** `.order(column, { ascending: false })`: the same rows, largest key first. Rows with
      equal keys come in an order the database does not promise; this one is a choice. */
  function SortDesc<T>(xs: seq<T>, key: T -> int): (r: seq<T>)
    ensures SortedDesc(r, key)
    ensures multiset(r) == multiset(xs)
    decreases |xs|
  {
    if xs == [] then []
    else
      var rest := SortDesc(xs[1..], key);
      InsertDescSorted(xs[0], rest, key);
      InsertDescPermutes(xs[0], rest, key);
      assert xs == [xs[0]] + xs[1..];
      InsertDesc(xs[0], rest, key)
  }

  /** `.limit(n)`: the first `n` rows, or all of them when there are fewer. */
  function Take<T>(xs: seq<T>, n: nat): (r: seq<T>)
    ensures |r| == Min(n, |xs|) && r == xs[..|r|]
  {
    if n >= |xs| then xs else xs[..n]
  }
}
