// The stable sort by (block number, log index) that orders the rows of a backfill file.
module StableSort {
  import opened Rows

  // The comparison by block number, and within a block by log index, does not put a after b.
  predicate AtMost(a: Row, b: Row) {
    a.blockNumber < b.blockNumber || (a.blockNumber == b.blockNumber && a.logIndex <= b.logIndex)
  }

  predicate SameKey(a: Row, b: Row) {
    a.blockNumber == b.blockNumber && a.logIndex == b.logIndex
  }

  ghost predicate Sorted(rows: seq<Row>) {
    forall i, j :: 0 <= i < j < |rows| ==> AtMost(rows[i], rows[j])
  }

  // The rows with the key of `k`, in their order of appearance.
  function WithKey(rows: seq<Row>, k: Row): seq<Row> {
    if rows == [] then []
    else (if SameKey(rows[0], k) then [rows[0]] else []) + WithKey(rows[1..], k)
  }

  // r is a stable arrangement of s: sorted, and rows of equal key keep their order.
  ghost predicate IsStableSortOf(r: seq<Row>, s: seq<Row>) {
    Sorted(r) && forall k :: WithKey(r, k) == WithKey(s, k)
  }

  function Insert(row: Row, rows: seq<Row>): seq<Row> {
    if rows == [] then [row]
    else if AtMost(row, rows[0]) then [row] + rows
    else [rows[0]] + Insert(row, rows[1..])
  }

  // What `slice::sort_by` returns for this comparison.
  function SortRows(rows: seq<Row>): seq<Row> {
    if rows == [] then [] else Insert(rows[0], SortRows(rows[1..]))
  }

  lemma {:induction false} InsertMultiset(row: Row, rows: seq<Row>)
    ensures multiset(Insert(row, rows)) == multiset{row} + multiset(rows)
  {
    if rows != [] {
      assert rows == [rows[0]] + rows[1..];
      if !AtMost(row, rows[0]) {
        InsertMultiset(row, rows[1..]);
      }
    }
  }

  lemma {:induction false} InsertSorted(row: Row, rows: seq<Row>)
    requires Sorted(rows)
    ensures Sorted(Insert(row, rows))
  {
    if rows != [] && !AtMost(row, rows[0]) {
      var rest := Insert(row, rows[1..]);
      InsertSorted(row, rows[1..]);
      InsertMultiset(row, rows[1..]);
      forall r | r in rest ensures AtMost(rows[0], r) {
        assert r in multiset(rest);
        assert r == row || r in rows[1..];
      }
    }
  }

  lemma {:induction false} InsertWithKey(row: Row, rows: seq<Row>, k: Row)
    ensures WithKey(Insert(row, rows), k) == WithKey([row] + rows, k)
  {
    assert ([row] + rows)[1..] == rows;
    if rows != [] && !AtMost(row, rows[0]) {
      var rest := Insert(row, rows[1..]);
      InsertWithKey(row, rows[1..], k);
      assert ([row] + rows[1..])[1..] == rows[1..];
      assert ([rows[0]] + rest)[1..] == rest;
    }
  }

  lemma {:induction false} SortRowsCorrect(rows: seq<Row>)
    ensures IsStableSortOf(SortRows(rows), rows)
    ensures multiset(SortRows(rows)) == multiset(rows)
    ensures var r := SortRows(rows);
            forall i, j :: 0 <= i < j < |r| ==>
                             r[i].blockNumber < r[j].blockNumber
                             || (r[i].blockNumber == r[j].blockNumber && r[i].logIndex <= r[j].logIndex)
  {
    if rows != [] {
      SortRowsCorrect(rows[1..]);
      InsertSorted(rows[0], SortRows(rows[1..]));
      InsertMultiset(rows[0], SortRows(rows[1..]));
      assert rows == [rows[0]] + rows[1..];
      forall k ensures WithKey(SortRows(rows), k) == WithKey(rows, k) {
        InsertWithKey(rows[0], SortRows(rows[1..]), k);
        assert ([rows[0]] + SortRows(rows[1..]))[1..] == SortRows(rows[1..]);
      }
    }
  }

  lemma {:induction false} WithKeyMember(rows: seq<Row>, k: Row)
    ensures forall r :: r in WithKey(rows, k) <==> r in rows && SameKey(r, k)
  {
    if rows != [] {
      WithKeyMember(rows[1..], k);
      assert rows == [rows[0]] + rows[1..];
    }
  }

  lemma {:induction false} WithKeyConcat(a: seq<Row>, b: seq<Row>, k: Row)
    ensures WithKey(a + b, k) == WithKey(a, k) + WithKey(b, k)
  {
    if a == [] {
      assert a + b == b;
    } else {
      assert (a + b)[1..] == a[1..] + b;
      WithKeyConcat(a[1..], b, k);
    }
  }

  // There is only one stable arrangement, so whichever algorithm the library
  // uses, its result is SortRows(s).
  lemma {:induction false} StableSortUnique(r: seq<Row>, s: seq<Row>)
    requires IsStableSortOf(r, s)
    ensures r == SortRows(s)
  {
    SortRowsCorrect(s);
    SortedByKeyUnique(r, SortRows(s));
  }

  lemma {:induction false} SortedByKeyUnique(r: seq<Row>, q: seq<Row>)
    requires Sorted(r) && Sorted(q)
    requires forall k :: WithKey(r, k) == WithKey(q, k)
    ensures r == q
  {
    assert q != [] ==> WithKey(q, q[0]) != [];
    if r != [] {
      WithKeyMember(r, r[0]);
      WithKeyMember(q, r[0]);
      assert WithKey(r, r[0]) == WithKey(q, r[0]);
      assert r[0] in WithKey(r, r[0]);
      assert r[0] in q;
      WithKeyMember(r, q[0]);
      WithKeyMember(q, q[0]);
      assert WithKey(r, q[0]) == WithKey(q, q[0]);
      assert q[0] in WithKey(q, q[0]);
      assert q[0] in r;
      assert AtMost(r[0], q[0]) && AtMost(q[0], r[0]);
      assert WithKey(r, r[0])[0] == r[0] && WithKey(q, r[0])[0] == q[0];
      forall k ensures WithKey(r[1..], k) == WithKey(q[1..], k) {
        assert WithKey(r, k) == WithKey(q, k);
        if SameKey(r[0], k) {
          assert WithKey(r, k)[1..] == WithKey(r[1..], k);
          assert WithKey(q, k)[1..] == WithKey(q[1..], k);
        } else {
          assert WithKey(r, k) == WithKey(r[1..], k);
          assert WithKey(q, k) == WithKey(q[1..], k);
        }
      }
      SortedByKeyUnique(r[1..], q[1..]);
      assert r == [r[0]] + r[1..] && q == [q[0]] + q[1..];
    }
  }

  // A sequence that already is in order is left as it is.
  lemma {:induction false} SortRowsOfSorted(rows: seq<Row>)
    requires Sorted(rows)
    ensures SortRows(rows) == rows
  {
    StableSortUnique(rows, rows);
  }
}
