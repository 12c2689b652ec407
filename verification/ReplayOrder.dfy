/** Replay order: by scalar sequence, then partition, then offset; and what sorting
    and cutting several ordered lists gives. */
module ReplayOrder {
  import opened LogModel
  import opened SqlEventLog

  /** String comparison, character by character. */
  function Less(a: string, b: string): bool {
    if b == "" then false
    else if a == "" then true
    else a[0] < b[0] || (a[0] == b[0] && Less(a[1..], b[1..]))
  }

  /** The order of SortEventsByReplayOrder. */
  predicate Before(a: Row, b: Row) {
    if a.scalar != b.scalar then a.scalar < b.scalar
    else if a.partition.kind != b.partition.kind then Less(a.partition.kind, b.partition.kind)
    else if a.partition.key != b.partition.key then Less(a.partition.key, b.partition.key)
    else a.offset < b.offset
  }

  predicate SameKey(a: Row, b: Row) {
    a.scalar == b.scalar && a.partition == b.partition && a.offset == b.offset
  }

  lemma {:induction false} LessTotal(a: string, b: string)
    ensures a != b ==> Less(a, b) || Less(b, a)
    ensures !(Less(a, b) && Less(b, a)) && !Less(a, a)
  {
    if a != "" && b != "" {
      LessTotal(a[1..], b[1..]);
      LessTotal(a[1..], a[1..]);
      if a[0] == b[0] && a[1..] == b[1..] {
        assert a == [a[0]] + a[1..] && b == [b[0]] + b[1..];
      }
    } else if a != "" {
      LessTotal(a[1..], a[1..]);
    }
  }

  lemma {:induction false} LessTransitive(a: string, b: string, c: string)
    requires Less(a, b) && Less(b, c)
    ensures Less(a, c)
  {
    if a != "" && a[0] == b[0] && b[0] == c[0] {
      LessTransitive(a[1..], b[1..], c[1..]);
    }
  }

  /** The first difference decides, and a prefix comes first. */
  lemma {:induction false} LessMeans(a: string, b: string)
    ensures Less(a, b) <==>
              exists k :: 0 <= k <= |a| && k <= |b| && a[..k] == b[..k]
                          && (if k < |a| then k < |b| && a[k] < b[k] else k < |b|)
  {
    if a != "" && b != "" && a[0] == b[0] {
      LessMeans(a[1..], b[1..]);
      if k :| 0 <= k <= |a[1..]| && k <= |b[1..]| && a[1..][..k] == b[1..][..k]
              && (if k < |a[1..]| then k < |b[1..]| && a[1..][k] < b[1..][k] else k < |b[1..]|) {
        assert a[..k + 1] == [a[0]] + a[1..][..k] && b[..k + 1] == [b[0]] + b[1..][..k];
      }
      if k :| 0 <= k <= |a| && k <= |b| && a[..k] == b[..k] && (if k < |a| then k < |b| && a[k] < b[k] else k < |b|) {
        assert k > 0;
        assert a[1..][..k - 1] == a[..k][1..] && b[1..][..k - 1] == b[..k][1..];
      }
    } else if a == "" {
      assert a[..0] == b[..0];
    } else if b != "" {
      assert a[..0] == b[..0];
      if k :| 0 <= k <= |a| && k <= |b| && a[..k] == b[..k] && (if k < |a| then k < |b| && a[k] < b[k] else k < |b|) {
        assert k > 0 ==> a[..k][0] == b[..k][0];
      }
    }
  }

  /** Sequence first, then kind and key of the partition, then offset. */
  lemma BeforeMeans(a: Row, b: Row)
    ensures a.scalar < b.scalar ==> Before(a, b)
    ensures a.scalar == b.scalar && Less(a.partition.kind, b.partition.kind) ==> Before(a, b)
    ensures a.scalar == b.scalar && a.partition.kind == b.partition.kind && Less(a.partition.key, b.partition.key) ==>
              Before(a, b)
    ensures a.scalar == b.scalar && a.partition == b.partition ==> (Before(a, b) <==> a.offset < b.offset)
  {
    LessTotal(a.partition.kind, a.partition.kind);
    LessTotal(a.partition.key, a.partition.key);
  }

  /** A strict total order on keys. */
  lemma BeforeTotal(a: Row, b: Row)
    ensures SameKey(a, b) || Before(a, b) || Before(b, a)
    ensures !(Before(a, b) && Before(b, a)) && !Before(a, a)
  {
    LessTotal(a.partition.kind, b.partition.kind);
    LessTotal(a.partition.key, b.partition.key);
  }

  lemma BeforeTransitive(a: Row, b: Row, c: Row)
    requires Before(a, b) && Before(b, c)
    ensures Before(a, c)
  {
    LessTotal(a.partition.kind, b.partition.kind);
    LessTotal(b.partition.kind, c.partition.kind);
    LessTotal(a.partition.key, b.partition.key);
    LessTotal(b.partition.key, c.partition.key);
    if Less(a.partition.kind, b.partition.kind) && Less(b.partition.kind, c.partition.kind) {
      LessTransitive(a.partition.kind, b.partition.kind, c.partition.kind);
      LessTotal(a.partition.kind, c.partition.kind);
    }
    if Less(a.partition.key, b.partition.key) && Less(b.partition.key, c.partition.key) {
      LessTransitive(a.partition.key, b.partition.key, c.partition.key);
      LessTotal(a.partition.key, c.partition.key);
    }
  }

  ghost predicate Ordered(rows: seq<Row>) {
    forall i, j :: 0 <= i < j < |rows| ==> Before(rows[i], rows[j])
  }

  /** No two rows share a key. */
  ghost predicate KeysDiffer(rows: seq<Row>) {
    forall i, j :: 0 <= i < j < |rows| ==> !SameKey(rows[i], rows[j])
  }

  function Inserted(rows: seq<Row>, row: Row): seq<Row> {
    if rows == [] || !Before(row, rows[|rows| - 1]) then rows + [row]
    else Inserted(rows[..|rows| - 1], row) + [rows[|rows| - 1]]
  }

  function SortRows(rows: seq<Row>): seq<Row> {
    if rows == [] then [] else Inserted(SortRows(rows[..|rows| - 1]), rows[|rows| - 1])
  }

  lemma {:induction false} InsertedHolds(rows: seq<Row>, row: Row)
    ensures multiset(Inserted(rows, row)) == multiset(rows) + multiset{row}
  {
    if rows != [] && Before(row, rows[|rows| - 1]) {
      InsertedHolds(rows[..|rows| - 1], row);
      assert rows == rows[..|rows| - 1] + [rows[|rows| - 1]];
    }
  }

  lemma {:induction false} SortHolds(rows: seq<Row>)
    ensures multiset(SortRows(rows)) == multiset(rows)
  {
    hide Inserted;
    if rows != [] {
      var init, last := rows[..|rows| - 1], rows[|rows| - 1];
      SortHolds(init);
      InsertedHolds(SortRows(init), last);
      assert multiset(rows) == multiset(init) + multiset{last} by {
        assert rows == init + [last];
      }
    }
  }

  lemma SortMembers(rows: seq<Row>)
    ensures |SortRows(rows)| == |rows|
    ensures forall row :: row in SortRows(rows) <==> row in rows
  {
    SortHolds(rows);
    forall row ensures row in SortRows(rows) <==> row in rows {
      assert row in SortRows(rows) <==> row in multiset(SortRows(rows));
      assert row in rows <==> row in multiset(rows);
    }
    assert |multiset(SortRows(rows))| == |multiset(rows)|;
  }

  lemma InsertedMembers(rows: seq<Row>, row: Row)
    ensures forall r :: r in Inserted(rows, row) <==> r in rows || r == row
  {
    InsertedHolds(rows, row);
    forall r ensures r in Inserted(rows, row) <==> r in rows || r == row {
      assert r in Inserted(rows, row) <==> r in multiset(Inserted(rows, row));
    }
  }

  lemma {:induction false} InsertedOrdered(rows: seq<Row>, row: Row)
    requires Ordered(rows) && forall i :: 0 <= i < |rows| ==> !SameKey(rows[i], row)
    ensures Ordered(Inserted(rows, row))
  {
    hide Before, SameKey;
    if rows != [] {
      var last := rows[|rows| - 1];
      var init := rows[..|rows| - 1];
      BeforeTotal(row, last);
      SameKeySwaps(row, last);
      if Before(row, last) {
        InsertedOrdered(init, row);
        InsertedMembers(init, row);
        OrderedSnoc(Inserted(init, row), last);
      } else {
        forall i | 0 <= i < |rows| ensures Before(rows[i], row) {
          if i < |rows| - 1 {
            BeforeTransitive(rows[i], last, row);
          }
        }
        OrderedSnoc(rows, row);
      }
    }
  }

  lemma SameKeySwaps(a: Row, b: Row)
    ensures SameKey(a, b) <==> SameKey(b, a)
  {
  }

  lemma OrderedSnoc(rows: seq<Row>, row: Row)
    requires Ordered(rows) && forall r :: r in rows ==> Before(r, row)
    ensures Ordered(rows + [row])
  {
    hide Before;
  }

  lemma {:induction false} SortOrdered(rows: seq<Row>)
    requires KeysDiffer(rows)
    ensures Ordered(SortRows(rows))
  {
    hide SameKey;
    if rows != [] {
      var n := |rows| - 1;
      SortOrdered(rows[..n]);
      SortMembers(rows[..n]);
      forall i | 0 <= i < |SortRows(rows[..n])| ensures !SameKey(SortRows(rows[..n])[i], rows[n]) {
        assert SortRows(rows[..n])[i] in rows[..n];
        var k :| 0 <= k < n && rows[..n][k] == SortRows(rows[..n])[i];
      }
      InsertedOrdered(SortRows(rows[..n]), rows[n]);
    }
  }

  lemma OrderedIndex(rows: seq<Row>, a: nat, b: nat)
    requires Ordered(rows) && a < |rows| && b < |rows| && rows[a] == rows[b]
    ensures a == b
  {
    BeforeTotal(rows[a], rows[b]);
  }

  lemma IndexOrder(rows: seq<Row>, a: nat, b: nat)
    requires Ordered(rows) && a < |rows| && b < |rows|
    ensures Before(rows[a], rows[b]) <==> a < b
  {
    BeforeTotal(rows[a], rows[b]);
  }

  /** An ordered list that holds the first n rows of another and nothing foreign
      starts with them. */
  lemma {:induction false} OrderedPrefix(a: seq<Row>, b: seq<Row>, n: nat)
    requires Ordered(a) && Ordered(b) && n <= |a|
    requires forall row :: row in b ==> row in a
    requires forall i :: 0 <= i < n ==> a[i] in b
    ensures n <= |b| && a[..n] == b[..n]
  {
    hide Before, Ordered;
    if n > 0 {
      var m := n - 1;
      OrderedPrefix(a, b, m);
      assert forall i :: 0 <= i < m ==> a[..m][i] == b[..m][i];
      var k :| 0 <= k < |b| && b[k] == a[m];
      if k < m {
        OrderedIndex(a, k, m);
      }
      assert b[m] in a;
      var l :| 0 <= l < |a| && a[l] == b[m];
      if l < m {
        OrderedIndex(b, l, m);
      }
      IndexOrder(b, m, k);
      IndexOrder(a, l, m);
      assert a[..n] == a[..m] + [a[m]] && b[..n] == b[..m] + [b[m]];
    }
  }

  /** Ordered lists with the same rows are the same list, so how the sort is done
      does not matter. */
  lemma OrderedUnique(a: seq<Row>, b: seq<Row>)
    requires Ordered(a) && Ordered(b) && forall row :: row in a <==> row in b
    ensures a == b
  {
    hide Ordered;
    OrderedPrefix(a, b, |a|);
    OrderedPrefix(b, a, |b|);
    assert a[..|a|] == a && b[..|b|] == b;
  }

  // ---- Several ordered lists, each cut first ----------------------------------------------

  function Concat(lists: seq<seq<Row>>): seq<Row> {
    if lists == [] then [] else Concat(lists[..|lists| - 1]) + lists[|lists| - 1]
  }

  function Cut(lists: seq<seq<Row>>, limit: nat): (r: seq<seq<Row>>)
    ensures |r| == |lists| && forall i :: 0 <= i < |lists| ==> r[i] == Cap(lists[i], limit)
  {
    seq(|lists|, i requires 0 <= i < |lists| => Cap(lists[i], limit))
  }

  function Cap(rows: seq<Row>, limit: nat): seq<Row> {
    if |rows| > limit then rows[..limit] else rows
  }

  /** The lists come from different partitions, each in replay order. */
  ghost predicate Separate(lists: seq<seq<Row>>, partitions: seq<Partition>) {
    && |lists| == |partitions|
    && (forall i, j :: 0 <= i < j < |partitions| ==> partitions[i] != partitions[j])
    && (forall i :: 0 <= i < |lists| ==> Ordered(lists[i]))
    && (forall i, k :: 0 <= i < |lists| && 0 <= k < |lists[i]| ==> lists[i][k].partition == partitions[i])
  }

  lemma {:induction false} ConcatMembers(lists: seq<seq<Row>>, row: Row)
    ensures row in Concat(lists) <==> exists i :: 0 <= i < |lists| && row in lists[i]
  {
    if lists != [] {
      var n := |lists| - 1;
      ConcatMembers(lists[..n], row);
      if row in Concat(lists[..n]) {
        var i :| 0 <= i < n && row in lists[..n][i];
        assert row in lists[i];
      }
      if i :| 0 <= i < |lists| && row in lists[i] {
        if i < n {
          assert row in lists[..n][i];
        }
      }
    }
  }

  lemma {:induction false} ConcatKeysDiffer(lists: seq<seq<Row>>, partitions: seq<Partition>)
    requires Separate(lists, partitions)
    ensures KeysDiffer(Concat(lists))
  {
    if lists != [] {
      var n := |lists| - 1;
      ConcatKeysDiffer(lists[..n], partitions[..n]);
      var init, last := Concat(lists[..n]), lists[n];
      forall i, j | 0 <= i < j < |init + last| ensures !SameKey((init + last)[i], (init + last)[j]) {
        if i < |init| <= j {
          var row := init[i];
          assert row in init;
          ConcatMembers(lists[..n], row);
          var k :| 0 <= k < n && row in lists[..n][k];
          assert row.partition == partitions[k];
        } else if i >= |init| {
          BeforeTotal(last[i - |init|], last[j - |init|]);
          assert Before(last[i - |init|], last[j - |init|]);
        }
      }
    }
  }

  lemma CutSeparate(lists: seq<seq<Row>>, partitions: seq<Partition>, limit: nat)
    requires Separate(lists, partitions)
    ensures Separate(Cut(lists, limit), partitions)
  {
    hide Before;
  }

  /** A row sits in the merged order at least as far as in its own list. */
  lemma {:induction false} MergedNoEarlier(merged: seq<Row>, rows: seq<Row>, i: nat) returns (k: nat)
    requires Ordered(merged) && Ordered(rows) && i < |rows|
    requires forall row :: row in rows ==> row in merged
    ensures i <= k < |merged| && merged[k] == rows[i]
  {
    hide Before, Ordered;
    assert rows[i] in merged;
    k :| 0 <= k < |merged| && merged[k] == rows[i];
    if i > 0 {
      var l := MergedNoEarlier(merged, rows, i - 1);
      IndexOrder(rows, i - 1, i);
      IndexOrder(merged, l, k);
    }
  }

  /** Cutting every list to the limit first loses none of the first `limit` rows of
      the whole. */
  lemma CutThenMerge(lists: seq<seq<Row>>, partitions: seq<Partition>, limit: nat)
    requires Separate(lists, partitions)
    ensures Cap(SortRows(Concat(Cut(lists, limit))), limit) == Cap(SortRows(Concat(lists)), limit)
  {
    hide Ordered, Before, SortRows, Concat, Separate, KeysDiffer;
    var whole, part := SortRows(Concat(lists)), SortRows(Concat(Cut(lists, limit)));
    CutSeparate(lists, partitions, limit);
    ConcatKeysDiffer(lists, partitions);
    ConcatKeysDiffer(Cut(lists, limit), partitions);
    SortOrdered(Concat(lists));
    SortOrdered(Concat(Cut(lists, limit)));
    SortMembers(Concat(lists));
    SortMembers(Concat(Cut(lists, limit)));
    CutMembers(lists, limit);
    var n := if |whole| > limit then limit else |whole|;
    forall k | 0 <= k < n ensures whole[k] in part {
      FirstSurvive(lists, partitions, limit, whole, k);
    }
    SamePage(whole, part, limit);
  }

  lemma SamePage(whole: seq<Row>, part: seq<Row>, limit: nat)
    requires Ordered(whole) && Ordered(part) && forall row :: row in part ==> row in whole
    requires forall k :: 0 <= k < |whole| && k < limit ==> whole[k] in part
    ensures Cap(part, limit) == Cap(whole, limit)
  {
    hide Ordered;
    var n := if |whole| > limit then limit else |whole|;
    OrderedPrefix(whole, part, n);
    if |whole| <= limit {
      assert whole[..n] == whole;
      OrderedPrefix(part, whole, |part|);
    }
  }

  lemma CutMembers(lists: seq<seq<Row>>, limit: nat)
    ensures forall row :: row in Concat(Cut(lists, limit)) ==> row in Concat(lists)
  {
    forall row | row in Concat(Cut(lists, limit)) ensures row in Concat(lists) {
      ConcatMembers(Cut(lists, limit), row);
      ConcatMembers(lists, row);
      var i :| 0 <= i < |lists| && row in Cut(lists, limit)[i];
      assert row in lists[i];
    }
  }

  lemma FirstSurvive(lists: seq<seq<Row>>, partitions: seq<Partition>, limit: nat, whole: seq<Row>, k: nat)
    requires Separate(lists, partitions) && Ordered(whole) && k < |whole| && k < limit
    requires forall row :: row in whole <==> row in Concat(lists)
    ensures whole[k] in Concat(Cut(lists, limit))
  {
    hide Ordered, Before;
    var row := whole[k];
    ConcatMembers(lists, row);
    var i :| 0 <= i < |lists| && row in lists[i];
    var j :| 0 <= j < |lists[i]| && lists[i][j] == row;
    forall r | r in lists[i] ensures r in whole {
      ConcatMembers(lists, r);
    }
    var l := MergedNoEarlier(whole, lists[i], j);
    OrderedIndex(whole, k, l);
    ConcatMembers(Cut(lists, limit), row);
    assert row == Cap(lists[i], limit)[j];
    assert row in Cut(lists, limit)[i];
  }
}
