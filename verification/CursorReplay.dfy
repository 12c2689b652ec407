/** Replay from a cursor of partition offsets: each partition is read and cut to the
    limit, the batches are sorted and cut again. */
module CursorReplay {
  import opened LogModel
  import opened BrokerEventLog
  import opened SqlEventLog
  import V = SqlViews
  import opened DerivedView
  import opened ReplayOrder

  datatype PartitionCursor = PartitionCursor(partition: Partition, offset: int)

  datatype Cursor = Cursor(scalar: int, partitions: seq<PartitionCursor>)

  /** The events table in sequence order, where offsets agree with it. */
  ghost predicate TableSound(rows: seq<Row>) {
    && Ascending(rows) && (forall i :: 0 <= i < |rows| ==> rows[i].partition.Normal())
    && (forall i, j :: 0 <= i < j < |rows| && rows[i].partition == rows[j].partition ==> rows[i].offset < rows[j].offset)
  }

  /** The highest offset a cursor names for a partition. */
  function AfterOf(parts: seq<PartitionCursor>, p: Partition): (r: int)
    ensures r >= 0
  {
    if parts == [] then 0
    else
      var rest, last := AfterOf(parts[..|parts| - 1], p), parts[|parts| - 1];
      if last.partition.Normalize() == p && last.offset > rest then last.offset else rest
  }

  predicate Due(parts: seq<PartitionCursor>, scopes: Option<seq<string>>, row: Row) {
    row.offset > AfterOf(parts, row.partition) && Wanted(scopes, row)
  }

  /** The whole remaining log: what the cursor has not seen, in sequence order. */
  function Remaining(rows: seq<Row>, parts: seq<PartitionCursor>, scopes: Option<seq<string>>): seq<Row> {
    if rows == [] then []
    else
      var last := rows[|rows| - 1];
      Remaining(rows[..|rows| - 1], parts, scopes) + if Due(parts, scopes, last) then [last] else []
  }

  /** One partition of it, as the query returns it. */
  function RemainingIn(rows: seq<Row>, parts: seq<PartitionCursor>, scopes: Option<seq<string>>,
                       p: Partition): seq<Row> {
    if rows == [] then []
    else
      var last := rows[|rows| - 1];
      RemainingIn(rows[..|rows| - 1], parts, scopes, p) + if last.partition == p && Due(parts, scopes, last) then [last] else []
  }

  lemma {:induction false} RemainingSound(rows: seq<Row>, parts: seq<PartitionCursor>, scopes: Option<seq<string>>)
    requires TableSound(rows)
    ensures Ordered(Remaining(rows, parts, scopes))
    ensures forall row :: row in Remaining(rows, parts, scopes) <==> row in rows && Due(parts, scopes, row)
  {
    hide Due;
    if rows != [] {
      var n := |rows| - 1;
      var init := rows[..n];
      RemainingSound(init, parts, scopes);
      assert rows == init + [rows[n]];
      if Due(parts, scopes, rows[n]) {
        OrderedSnoc(Remaining(init, parts, scopes), rows[n]);
      }
    }
  }

  lemma {:induction false} RemainingInSound(rows: seq<Row>, parts: seq<PartitionCursor>, scopes: Option<seq<string>>,
                                            p: Partition)
    requires TableSound(rows)
    ensures Ordered(RemainingIn(rows, parts, scopes, p))
    ensures forall row :: row in RemainingIn(rows, parts, scopes, p) <==>
              row in rows && row.partition == p && Due(parts, scopes, row)
  {
    hide Due;
    if rows != [] {
      var n := |rows| - 1;
      var init := rows[..n];
      RemainingInSound(init, parts, scopes, p);
      assert rows == init + [rows[n]];
      if rows[n].partition == p && Due(parts, scopes, rows[n]) {
        OrderedSnoc(RemainingIn(init, parts, scopes, p), rows[n]);
      }
    }
  }

  ghost function Lists(rows: seq<Row>, parts: seq<PartitionCursor>, scopes: Option<seq<string>>,
                       partitions: seq<Partition>): (r: seq<seq<Row>>)
    ensures |r| == |partitions| && forall i :: 0 <= i < |r| ==> r[i] == RemainingIn(rows, parts, scopes, partitions[i])
  {
    seq(|partitions|, i requires 0 <= i < |partitions| => RemainingIn(rows, parts, scopes, partitions[i]))
  }

  ghost predicate Covers(partitions: seq<Partition>, rows: seq<Row>) {
    forall i :: 0 <= i < |rows| ==> rows[i].partition in partitions
  }

  lemma ListsSeparate(rows: seq<Row>, parts: seq<PartitionCursor>, scopes: Option<seq<string>>,
                      partitions: seq<Partition>)
    requires TableSound(rows) && Distinct(partitions)
    ensures Separate(Lists(rows, parts, scopes, partitions), partitions)
  {
    hide Due, Ordered, RemainingIn;
    var lists := Lists(rows, parts, scopes, partitions);
    forall i | 0 <= i < |lists|
      ensures Ordered(lists[i]) && forall k :: 0 <= k < |lists[i]| ==> lists[i][k].partition == partitions[i]
    {
      RemainingInSound(rows, parts, scopes, partitions[i]);
    }
  }

  /** Merging the partitions gives the remaining log. */
  lemma MergedIsRemaining(rows: seq<Row>, parts: seq<PartitionCursor>, scopes: Option<seq<string>>,
                          partitions: seq<Partition>)
    requires TableSound(rows) && Distinct(partitions) && Covers(partitions, rows)
    ensures SortRows(Concat(Lists(rows, parts, scopes, partitions))) == Remaining(rows, parts, scopes)
  {
    hide Due, Ordered, SortRows, Remaining, RemainingIn, Concat;
    var lists := Lists(rows, parts, scopes, partitions);
    ListsSeparate(rows, parts, scopes, partitions);
    ConcatKeysDiffer(lists, partitions);
    SortOrdered(Concat(lists));
    SortMembers(Concat(lists));
    RemainingSound(rows, parts, scopes);
    forall row ensures row in Concat(lists) <==> row in Remaining(rows, parts, scopes) {
      ConcatMembers(lists, row);
      forall i | 0 <= i < |lists| ensures row in lists[i] <==>
          row in rows && row.partition == partitions[i] && Due(parts, scopes, row) {
        RemainingInSound(rows, parts, scopes, partitions[i]);
      }
      if row in rows {
        var i :| 0 <= i < |partitions| && partitions[i] == row.partition;
        assert row in lists[i] <==> Due(parts, scopes, row);
      }
    }
    OrderedUnique(SortRows(Concat(lists)), Remaining(rows, parts, scopes));
  }

  method OffsetsAfter(parts: seq<PartitionCursor>) returns (after: map<Partition, int>)
    ensures forall p :: OffsetOf(after, p) == AfterOf(parts, p)
  {
    after := map[];
    var i := 0;
    while i < |parts|
      invariant 0 <= i <= |parts| && forall p :: OffsetOf(after, p) == AfterOf(parts[..i], p)
    {
      assert parts[..i + 1][..i] == parts[..i];
      var p := parts[i].partition.Normalize();
      if parts[i].offset > OffsetOf(after, p) {
        after := after[p := parts[i].offset];
      }
      i := i + 1;
    }
    assert parts[..i] == parts;
  }

  function InPartition(rows: seq<Row>, p: Partition, after: int): seq<Row> {
    if rows == [] then []
    else
      var last := rows[|rows| - 1];
      InPartition(rows[..|rows| - 1], p, after) + if last.partition == p && last.offset > after then [last] else []
  }

  predicate EarlierOffset(a: Row, b: Row) {
    a.offset < b.offset || (a.offset == b.offset && a.scalar < b.scalar)
  }

  function Slotted(rows: seq<Row>, row: Row): seq<Row> {
    if rows != [] && EarlierOffset(row, rows[|rows| - 1]) then Slotted(rows[..|rows| - 1], row) + [rows[|rows| - 1]]
    else rows + [row]
  }

  /** ORDER BY partition_offset, seq. */
  function ByOffset(rows: seq<Row>): seq<Row> {
    if rows == [] then [] else Slotted(ByOffset(rows[..|rows| - 1]), rows[|rows| - 1])
  }

  /** What one partition's query returns. */
  function Queried(rows: seq<Row>, p: Partition, after: int, scopes: Option<seq<string>>): seq<Row> {
    if p.Normal() then Matching(ByOffset(InPartition(rows, p, after)), scopes) else []
  }

  method ReplayPartitionFiltered(rows: seq<Row>, p: Partition, afterOffset: int, scopes: Option<seq<string>>,
                                 limit: int) returns (out: seq<Row>)
    ensures out == Limit(Queried(rows, p, afterOffset, scopes), limit)
  {
    if p.kind == "" || p.key == "" {
      return [];
    }
    out := ScanRows(ByOffset(InPartition(rows, p, afterOffset)), scopes, limit);
  }

  lemma {:induction false} ByOffsetStays(rows: seq<Row>)
    requires forall i, j :: 0 <= i < j < |rows| ==> rows[i].offset < rows[j].offset
    ensures ByOffset(rows) == rows
  {
    hide ByOffset;
    if rows != [] {
      var init, last := rows[..|rows| - 1], rows[|rows| - 1];
      ByOffsetStays(init);
      ByOffsetSnoc(rows);
      assert Slotted(init, last) == init + [last];
    } else {
      ByOffsetNone();
    }
  }

  lemma ByOffsetSnoc(rows: seq<Row>)
    requires rows != []
    ensures ByOffset(rows) == Slotted(ByOffset(rows[..|rows| - 1]), rows[|rows| - 1])
  {
  }

  lemma ByOffsetNone()
    ensures ByOffset([]) == []
  {
  }

  lemma {:induction false} InPartitionSound(rows: seq<Row>, p: Partition, after: int)
    requires TableSound(rows)
    ensures forall i, j :: 0 <= i < j < |InPartition(rows, p, after)| ==>
              InPartition(rows, p, after)[i].offset < InPartition(rows, p, after)[j].offset
    ensures forall i :: 0 <= i < |InPartition(rows, p, after)| ==>
              InPartition(rows, p, after)[i] in rows && InPartition(rows, p, after)[i].partition == p
  {
    if rows != [] {
      var n := |rows| - 1;
      InPartitionSound(rows[..n], p, after);
      var init := InPartition(rows[..n], p, after);
      forall i | 0 <= i < |init| && rows[n].partition == p ensures init[i].offset < rows[n].offset && init[i] in rows {
        var k :| 0 <= k < n && rows[..n][k] == init[i];
      }
    }
  }

  lemma {:induction false} MatchingIsRemaining(rows: seq<Row>, parts: seq<PartitionCursor>, scopes: Option<seq<string>>,
                                               p: Partition)
    ensures Matching(InPartition(rows, p, AfterOf(parts, p)), scopes) == RemainingIn(rows, parts, scopes, p)
  {
    hide AfterOf, Wanted;
    if rows != [] {
      var n := |rows| - 1;
      MatchingIsRemaining(rows[..n], parts, scopes, p);
      var init := InPartition(rows[..n], p, AfterOf(parts, p));
      assert (init + [rows[n]])[..|init|] == init && init + [] == init;
      assert Matching(init, scopes) + [] == Matching(init, scopes);
    }
  }

  /** Where offsets agree with sequences, the query is that part of the remaining log. */
  lemma QueryIsRemaining(rows: seq<Row>, parts: seq<PartitionCursor>, scopes: Option<seq<string>>, p: Partition)
    requires TableSound(rows) && p.Normal()
    ensures Queried(rows, p, AfterOf(parts, p), scopes) == RemainingIn(rows, parts, scopes, p)
  {
    hide AfterOf, InPartition, ByOffset, Matching, RemainingIn;
    InPartitionSound(rows, p, AfterOf(parts, p));
    ByOffsetStays(InPartition(rows, p, AfterOf(parts, p)));
    MatchingIsRemaining(rows, parts, scopes, p);
  }

  // ---- Which partitions are read -----------------------------------------------------------

  predicate PartitionLess(a: Partition, b: Partition) {
    if a.kind == b.kind then Less(a.key, b.key) else Less(a.kind, b.kind)
  }

  function Filed(partitions: seq<Partition>, p: Partition): seq<Partition> {
    if partitions != [] && PartitionLess(p, partitions[|partitions| - 1]) then
      Filed(partitions[..|partitions| - 1], p) + [partitions[|partitions| - 1]]
    else partitions + [p]
  }

  function SortPartitions(partitions: seq<Partition>): seq<Partition> {
    if partitions == [] then []
    else Filed(SortPartitions(partitions[..|partitions| - 1]), partitions[|partitions| - 1])
  }

  lemma {:induction false} FiledSound(partitions: seq<Partition>, p: Partition)
    ensures forall q :: q in Filed(partitions, p) <==> q in partitions || q == p
    ensures p !in partitions && Distinct(partitions) ==> Distinct(Filed(partitions, p))
  {
    hide PartitionLess;
    if partitions != [] && PartitionLess(p, partitions[|partitions| - 1]) {
      var init, last := partitions[..|partitions| - 1], partitions[|partitions| - 1];
      FiledSound(init, p);
      assert partitions == init + [last];
      assert Distinct(partitions) ==> Distinct(init) && last !in init;
    }
  }

  lemma {:induction false} SortPartitionsSound(partitions: seq<Partition>)
    ensures forall q :: q in SortPartitions(partitions) <==> q in partitions
    ensures Distinct(partitions) ==> Distinct(SortPartitions(partitions))
  {
    hide Filed, Distinct;
    if partitions != [] {
      var init, last := partitions[..|partitions| - 1], partitions[|partitions| - 1];
      SortPartitionsSound(init);
      FiledSound(SortPartitions(init), last);
      if Distinct(partitions) {
        DistinctInit(partitions);
      }
      assert partitions == init + [last];
    } else {
      assert SortPartitions(partitions) == partitions;
    }
  }

  lemma DistinctInit(partitions: seq<Partition>)
    requires Distinct(partitions) && partitions != []
    ensures Distinct(partitions[..|partitions| - 1]) && partitions[|partitions| - 1] !in partitions[..|partitions| - 1]
  {
  }

  ghost predicate PartitionsOrdered(partitions: seq<Partition>) {
    forall i, j :: 0 <= i < j < |partitions| ==> PartitionLess(partitions[i], partitions[j])
  }

  lemma PartitionLessTotal(a: Partition, b: Partition)
    ensures a == b || PartitionLess(a, b) || PartitionLess(b, a)
  {
    LessTotal(a.kind, b.kind);
    LessTotal(a.key, b.key);
  }

  lemma PartitionLessTransitive(a: Partition, b: Partition, c: Partition)
    requires PartitionLess(a, b) && PartitionLess(b, c)
    ensures PartitionLess(a, c)
  {
    LessTotal(a.kind, b.kind);
    if a.kind == b.kind == c.kind {
      LessTransitive(a.key, b.key, c.key);
    } else if a.kind != b.kind && b.kind != c.kind {
      LessTransitive(a.kind, b.kind, c.kind);
    }
  }

  lemma {:induction false} FiledOrders(partitions: seq<Partition>, p: Partition)
    requires PartitionsOrdered(partitions) && p !in partitions
    ensures PartitionsOrdered(Filed(partitions, p))
  {
    hide PartitionLess;
    var n := |partitions| - 1;
    if partitions != [] {
      PartitionLessTotal(partitions[n], p);
    }
    if partitions != [] && PartitionLess(p, partitions[n]) {
      FiledOrders(partitions[..n], p);
      FiledSound(partitions[..n], p);
      forall q | q in Filed(partitions[..n], p) ensures PartitionLess(q, partitions[n]) {
        assert q == p || exists i :: 0 <= i < n && partitions[i] == q;
      }
    } else {
      forall i | 0 <= i < |partitions| ensures PartitionLess(partitions[i], p) {
        if i < n {
          PartitionLessTransitive(partitions[i], partitions[n], p);
        }
      }
    }
  }

  lemma {:induction false} SortPartitionsOrders(partitions: seq<Partition>)
    requires Distinct(partitions)
    ensures PartitionsOrdered(SortPartitions(partitions))
  {
    hide PartitionLess, Filed;
    if partitions != [] {
      var init, last := partitions[..|partitions| - 1], partitions[|partitions| - 1];
      SortPartitionsOrders(init);
      SortPartitionsSound(init);
      FiledOrders(SortPartitions(init), last);
    }
  }

  function Once(partitions: seq<Partition>): seq<Partition> {
    if partitions == [] then []
    else
      var init, p := Once(partitions[..|partitions| - 1]), partitions[|partitions| - 1].Normalize();
      if p in init then init else init + [p]
  }

  lemma DistinctSnoc(partitions: seq<Partition>, p: Partition)
    requires Distinct(partitions)
    ensures p !in partitions ==> Distinct(partitions + [p])
  {
  }

  lemma DistinctNone()
    ensures Distinct([])
  {
  }

  lemma {:induction false} OnceSound(partitions: seq<Partition>)
    ensures Distinct(Once(partitions))
    ensures forall i :: 0 <= i < |partitions| ==> partitions[i].Normalize() in Once(partitions)
    ensures forall q :: q in Once(partitions) ==> q.Normal()
  {
    hide Distinct, Once;
    if partitions != [] {
      var n := |partitions| - 1;
      var init, p := Once(partitions[..n]), partitions[n].Normalize();
      OnceSound(partitions[..n]);
      OnceSnoc(partitions, n);
      assert partitions[..n + 1] == partitions;
      DistinctSnoc(init, p);
      assert forall q :: q in Once(partitions) <==> q in init || q == p;
      forall i | 0 <= i < |partitions| ensures partitions[i].Normalize() in Once(partitions) {
        if i < n {
          assert partitions[..n][i] == partitions[i];
        }
      }
    } else {
      NothingOnce(partitions);
      assert partitions[..0] == partitions;
      DistinctNone();
    }
  }

  lemma {:induction false} OnceOnly(partitions: seq<Partition>, p: Partition) returns (i: nat)
    requires p in Once(partitions)
    ensures i < |partitions| && partitions[i].Normalize() == p
  {
    var n := |partitions| - 1;
    if p in Once(partitions[..n]) {
      i := OnceOnly(partitions[..n], p);
    } else {
      i := n;
    }
  }

  function Named(parts: seq<PartitionCursor>): (r: seq<Partition>)
    ensures |r| == |parts| && forall i :: 0 <= i < |r| ==> r[i] == parts[i].partition
  {
    seq(|parts|, i requires 0 <= i < |parts| => parts[i].partition)
  }

  function ToRead(listed: seq<Partition>, parts: seq<PartitionCursor>): seq<Partition> {
    SortPartitions(Once(listed + Named(parts)))
  }

  lemma NothingOnce(partitions: seq<Partition>)
    ensures Once(partitions[..0]) == []
  {
  }

  lemma OnceSnoc(partitions: seq<Partition>, i: nat)
    requires i < |partitions|
    ensures
      var init, p := Once(partitions[..i]), partitions[i].Normalize();
      Once(partitions[..i + 1]) == if p in init then init else init + [p]
  {
    assert partitions[..i + 1][..i] == partitions[..i];
  }

  ghost predicate ListedOrNamed(listed: seq<Partition>, parts: seq<PartitionCursor>, p: Partition) {
    || (exists i :: 0 <= i < |listed| && listed[i].Normalize() == p)
    || exists i :: 0 <= i < |parts| && parts[i].partition.Normalize() == p
  }

  /** Exactly the partitions that are listed or that the cursor names, in strictly
      increasing order, so each once. */
  lemma ReadInOrder(listed: seq<Partition>, parts: seq<PartitionCursor>)
    ensures PartitionsOrdered(ToRead(listed, parts))
    ensures forall p :: p in ToRead(listed, parts) <==> ListedOrNamed(listed, parts, p)
  {
    hide PartitionLess, Once, SortPartitions;
    var all := listed + Named(parts);
    OnceSound(all);
    SortPartitionsSound(Once(all));
    SortPartitionsOrders(Once(all));
    forall p ensures p in Once(all) <==> ListedOrNamed(listed, parts, p) {
      if p in Once(all) {
        var i := OnceOnly(all, p);
        assert i < |listed| || parts[i - |listed|].partition.Normalize() == p;
      }
      if i :| 0 <= i < |listed| && listed[i].Normalize() == p {
        assert all[i].Normalize() in Once(all);
      }
      if i :| 0 <= i < |parts| && parts[i].partition.Normalize() == p {
        assert all[|listed| + i].Normalize() in Once(all);
      }
    }
  }

  /** Listed partitions and those only the cursor names, each once, in order. */
  method PartitionsToRead(listed: seq<Partition>, parts: seq<PartitionCursor>) returns (partitions: seq<Partition>)
    ensures partitions == ToRead(listed, parts)
  {
    hide Once, SortPartitions;
    NothingOnce(listed + Named(parts));
    ghost var all := listed + Named(parts);
    partitions := OncePrefix(listed, all, [], 0);
    assert all[..|listed| + |parts|] == all;
    partitions := OncePrefix(Named(parts), all, partitions, |listed|);
    partitions := SortPartitions(partitions);
  }

  /** The loop over both lists: skip what was seen. */
  method OncePrefix(more: seq<Partition>, ghost all: seq<Partition>, seen: seq<Partition>,
                    ghost from: nat) returns (partitions: seq<Partition>)
    requires from + |more| <= |all| && more == all[from..from + |more|] && seen == Once(all[..from])
    ensures partitions == Once(all[..from + |more|])
  {
    hide Once;
    partitions := seen;
    var i := 0;
    while i < |more|
      invariant 0 <= i <= |more| && partitions == Once(all[..from + i])
    {
      OnceSnoc(all, from + i);
      var p := more[i].Normalize();
      if p !in partitions {
        partitions := partitions + [p];
      }
      i := i + 1;
    }
  }

  // ---- The replay ------------------------------------------------------------------------------

  function Queries(rows: seq<Row>, parts: seq<PartitionCursor>, scopes: Option<seq<string>>,
                   partitions: seq<Partition>): (r: seq<seq<Row>>)
    ensures |r| == |partitions| && forall i :: 0 <= i < |r| ==>
              r[i] == Queried(rows, partitions[i], AfterOf(parts, partitions[i]), scopes)
  {
    seq(|partitions|, i requires 0 <= i < |partitions| => Queried(rows, partitions[i], AfterOf(parts, partitions[i]), scopes))
  }

  predicate ByScalar(cursor: Cursor) {
    cursor.scalar > 0 || cursor.partitions == []
  }

  function ScalarRest(rows: seq<Row>, scalar: int, scopes: Option<seq<string>>): seq<Row> {
    Matching(Sorted(RowsAfter(rows, Greater(scalar, 0))), scopes)
  }

  /** What the code computes, for any table: each partition queried and cut, the
      batches sorted and cut again. */
  function CursorBatch(rows: seq<Row>, listed: seq<Partition>, cursor: Cursor, scopes: Option<seq<string>>,
                       limit: int): seq<Row> {
    if ByScalar(cursor) then Limit(ScalarRest(rows, cursor.scalar, scopes), limit)
    else
      var lists := Queries(rows, cursor.partitions, scopes, ToRead(listed, cursor.partitions));
      Cap(SortRows(Concat(Cut(lists, PageSize(limit)))), PageSize(limit))
  }

  method ReplayCursor(rows: seq<Row>, listed: seq<Partition>, cursor: Cursor, scopes: Option<seq<string>>, limit: int)
    returns (events: seq<Row>)
    ensures events == CursorBatch(rows, listed, cursor, scopes, limit)
  {
    hide SortRows, Concat, Sorted, RowsAfter, Matching, AfterOf, Queried, ToRead;
    if cursor.scalar > 0 || cursor.partitions == [] {
      events := ScanRows(Sorted(RowsAfter(rows, Greater(cursor.scalar, 0))), scopes, limit);
      return;
    }
    var n := PageSize(limit);
    var parts := cursor.partitions;
    var after := OffsetsAfter(parts);
    var partitions := PartitionsToRead(listed, parts);
    ghost var lists := Queries(rows, parts, scopes, partitions);
    events := [];
    var i := 0;
    NoLists(Cut(lists, n));
    while i < |partitions|
      invariant 0 <= i <= |partitions| && events == Concat(Cut(lists, n)[..i])
    {
      var batch := ReplayPartitionFiltered(rows, partitions[i], OffsetOf(after, partitions[i]), scopes, n);
      ConcatStep(Cut(lists, n), i);
      events := events + batch;
      i := i + 1;
    }
    assert Cut(lists, n)[..i] == Cut(lists, n);
    events := SortRows(events);
    if |events| > n {
      events := events[..n];
    }
  }

  lemma NoLists(lists: seq<seq<Row>>)
    ensures Concat(lists[..0]) == []
  {
  }

  lemma ConcatStep(lists: seq<seq<Row>>, i: nat)
    requires i < |lists|
    ensures Concat(lists[..i + 1]) == Concat(lists[..i]) + lists[i]
  {
    assert lists[..i + 1][..i] == lists[..i];
  }

  /** A partition cursor returns exactly the first `limit` matching rows of the whole
      remaining log, although each partition is cut first. */
  lemma CursorBatchIsFirst(rows: seq<Row>, listed: seq<Partition>, cursor: Cursor, scopes: Option<seq<string>>, limit: int)
    requires TableSound(rows) && Covers(listed, rows) && !ByScalar(cursor)
    ensures CursorBatch(rows, listed, cursor, scopes, limit) ==
            Cap(Remaining(rows, cursor.partitions, scopes), PageSize(limit))
  {
    hide SortRows, Concat, Remaining, RemainingIn, AfterOf, Queried, SortPartitions, Once, TableSound;
    var parts := cursor.partitions;
    var partitions := ToRead(listed, parts);
    var all := listed + Named(parts);
    OnceSound(all);
    SortPartitionsSound(Once(all));
    assert Covers(partitions, rows) by {
      forall k | 0 <= k < |rows| ensures rows[k].partition in partitions {
        RowNormal(rows, k);
        var m :| 0 <= m < |listed| && listed[m] == rows[k].partition;
        assert all[m].Normalize() == rows[k].partition;
      }
    }
    forall i | 0 <= i < |partitions|
      ensures Queried(rows, partitions[i], AfterOf(parts, partitions[i]), scopes) ==
              RemainingIn(rows, parts, scopes, partitions[i])
    {
      assert partitions[i] in partitions;
      QueryIsRemaining(rows, parts, scopes, partitions[i]);
    }
    assert Queries(rows, parts, scopes, partitions) == Lists(rows, parts, scopes, partitions);
    ListsSeparate(rows, parts, scopes, partitions);
    CutThenMerge(Lists(rows, parts, scopes, partitions), partitions, PageSize(limit));
    MergedIsRemaining(rows, parts, scopes, partitions);
  }

  lemma RowNormal(rows: seq<Row>, k: nat)
    requires TableSound(rows) && k < |rows|
    ensures rows[k].partition.Normal()
  {
  }

  // ---- Resuming -----------------------------------------------------------------------------

  /** Raise the offset of the row's partition, or add it. */
  function ObservePartition(parts: seq<PartitionCursor>, row: Row): seq<PartitionCursor> {
    if parts == [] then [PartitionCursor(row.partition, row.offset)]
    else if parts[0].partition == row.partition then
      [PartitionCursor(row.partition, if row.offset > parts[0].offset then row.offset else parts[0].offset)] + parts[1..]
    else [parts[0]] + ObservePartition(parts[1..], row)
  }

  function ObservePartitions(parts: seq<PartitionCursor>, rows: seq<Row>): seq<PartitionCursor> {
    if rows == [] then parts else ObservePartition(ObservePartitions(parts, rows[..|rows| - 1]), rows[|rows| - 1])
  }

  lemma {:induction false} AfterOfCons(first: PartitionCursor, rest: seq<PartitionCursor>, p: Partition)
    ensures AfterOf([first] + rest, p) ==
            Greater(if first.partition.Normalize() == p && first.offset > 0 then first.offset else 0, AfterOf(rest, p))
  {
    if rest == [] {
      assert [first] + rest == [first];
      assert [first][..0] == [];
      assert AfterOf([first][..0], p) == 0;
    } else {
      var n := |rest| - 1;
      assert ([first] + rest)[..n + 1] == [first] + rest[..n];
      AfterOfCons(first, rest[..n], p);
    }
  }

  lemma {:induction false} ObserveRaises(parts: seq<PartitionCursor>, row: Row, p: Partition)
    requires row.partition.Normal() && row.offset > 0
    ensures AfterOf(ObservePartition(parts, row), p) ==
            if p == row.partition then Greater(AfterOf(parts, p), row.offset) else AfterOf(parts, p)
    decreases |parts|
  {
    hide AfterOf;
    if parts == [] {
      AfterOfCons(PartitionCursor(row.partition, row.offset), [], p);
      assert [PartitionCursor(row.partition, row.offset)] + [] == [PartitionCursor(row.partition, row.offset)];
      NoCursor(p);
    } else {
      assert parts == [parts[0]] + parts[1..];
      AfterOfCons(parts[0], parts[1..], p);
      if parts[0].partition == row.partition {
        AfterOfCons(ObservePartition(parts, row)[0], parts[1..], p);
      } else {
        ObserveRaises(parts[1..], row, p);
        AfterOfCons(parts[0], ObservePartition(parts[1..], row), p);
      }
    }
  }

  lemma NoCursor(p: Partition)
    ensures AfterOf([], p) == 0
  {
  }

  ghost predicate SeenUpTo(parts: seq<PartitionCursor>, seen: seq<Row>, p: Partition, after: int) {
    && (forall i :: 0 <= i < |seen| && seen[i].partition == p ==> seen[i].offset <= after)
    && (after == AfterOf(parts, p) || exists i :: 0 <= i < |seen| && seen[i].partition == p && seen[i].offset == after)
    && AfterOf(parts, p) <= after
  }

  lemma {:induction false} ObservedAll(parts: seq<PartitionCursor>, seen: seq<Row>, p: Partition)
    requires forall i :: 0 <= i < |seen| ==> seen[i].partition.Normal() && seen[i].offset > 0
    ensures SeenUpTo(parts, seen, p, AfterOf(ObservePartitions(parts, seen), p))
  {
    hide AfterOf, Observe;
    if seen != [] {
      var n := |seen| - 1;
      ObservedAll(parts, seen[..n], p);
      ObserveRaises(ObservePartitions(parts, seen[..n]), seen[n], p);
      var before := AfterOf(ObservePartitions(parts, seen[..n]), p);
      if before != AfterOf(parts, p) {
        var i :| 0 <= i < n && seen[..n][i].partition == p && seen[..n][i].offset == before;
        assert seen[i].partition == p && seen[i].offset == before;
      }
    }
  }

  /** Rows with positive offsets: every row of the events table. */
  ghost predicate Numbered(rows: seq<Row>) {
    forall i :: 0 <= i < |rows| ==> rows[i].offset > 0
  }

  lemma DueAfter(rows: seq<Row>, parts: seq<PartitionCursor>, scopes: Option<seq<string>>, n: nat, i: nat)
    requires TableSound(rows) && Numbered(rows) && n <= |Remaining(rows, parts, scopes)|
    requires i < |Remaining(rows, parts, scopes)|
    ensures
      var rest := Remaining(rows, parts, scopes);
      Due(ObservePartitions(parts, rest[..n]), scopes, rest[i]) <==> i >= n
  {
    hide Remaining, AfterOf, ObserveAll, Wanted;
    var rest := Remaining(rows, parts, scopes);
    var seen := rest[..n];
    RemainingSound(rows, parts, scopes);
    forall k | 0 <= k < |rest| ensures rest[k].partition.Normal() && rest[k].offset > 0 && Due(parts, scopes, rest[k]) {
      assert rest[k] in rows;
    }
    var p := rest[i].partition;
    ObservedAll(parts, seen, p);
    var after := AfterOf(ObservePartitions(parts, seen), p);
    if i < n {
      assert seen[i] == rest[i];
    } else if after != AfterOf(parts, p) {
      var k :| 0 <= k < |seen| && seen[k].partition == p && seen[k].offset == after;
      OffsetsAgree(rows, rest, k, i);
    }
  }

  lemma OffsetsAgree(rows: seq<Row>, rest: seq<Row>, k: nat, i: nat)
    requires TableSound(rows) && Ordered(rest) && k < i < |rest| && rest[k].partition == rest[i].partition
    requires rest[k] in rows && rest[i] in rows
    ensures rest[k].offset < rest[i].offset
  {
    var a :| 0 <= a < |rows| && rows[a] == rest[k];
    var b :| 0 <= b < |rows| && rows[b] == rest[i];
    assert Before(rest[k], rest[i]);
  }

  /** What was returned, then what the advanced cursor still has to see, is the
      whole: nothing is lost and nothing comes twice. */
  lemma ResumeIsExact(rows: seq<Row>, parts: seq<PartitionCursor>, scopes: Option<seq<string>>, limit: nat)
    requires TableSound(rows) && Numbered(rows)
    ensures
      var batch := Cap(Remaining(rows, parts, scopes), limit);
      Remaining(rows, parts, scopes) == batch + Remaining(rows, ObservePartitions(parts, batch), scopes)
  {
    hide Remaining, Due, ObserveAll, Ordered;
    var rest := Remaining(rows, parts, scopes);
    var batch := Cap(rest, limit);
    var parts' := ObservePartitions(parts, batch);
    var n := |batch|;
    assert batch == rest[..n];
    RemainingSound(rows, parts, scopes);
    RemainingSound(rows, parts', scopes);
    forall row ensures row in rest[n..] <==> row in Remaining(rows, parts', scopes) {
      forall i | 0 <= i < |rest| ensures Due(parts', scopes, rest[i]) <==> i >= n {
        DueAfter(rows, parts, scopes, n, i);
      }
      if row in rows && Due(parts', scopes, row) {
        StillDue(rows, parts, scopes, batch, row);
        assert row in rest;
        var i :| 0 <= i < |rest| && rest[i] == row;
        assert rest[n..][i - n] == row;
      }
    }
    OrderedTail(rest, n);
    OrderedUnique(rest[n..], Remaining(rows, parts', scopes));
    assert rest == rest[..n] + rest[n..];
  }

  lemma OrderedTail(rows: seq<Row>, n: nat)
    requires Ordered(rows) && n <= |rows|
    ensures Ordered(rows[n..])
  {
    hide Before;
  }

  lemma StillDue(rows: seq<Row>, parts: seq<PartitionCursor>, scopes: Option<seq<string>>, seen: seq<Row>, row: Row)
    requires TableSound(rows) && Numbered(rows) && Due(ObservePartitions(parts, seen), scopes, row)
    requires forall k :: 0 <= k < |seen| ==> seen[k] in rows
    ensures Due(parts, scopes, row)
  {
    hide AfterOf, ObserveAll, Wanted;
    ObservedAll(parts, seen, row.partition);
  }

  /** Paging with a cursor that keeps only partition offsets until nothing is left
      enumerates the whole remaining log, in order, each row once. */
  method Enumerate(rows: seq<Row>, listed: seq<Partition>, cursor: Cursor, scopes: Option<seq<string>>,
                   limit: int) returns (out: seq<Row>)
    requires TableSound(rows) && Numbered(rows) && Covers(listed, rows) && !ByScalar(cursor)
    ensures out == Remaining(rows, cursor.partitions, scopes)
  {
    hide Remaining, TableSound, Covers, Numbered, CursorBatch;
    out := [];
    var parts := cursor.partitions;
    while true
      invariant parts != [] && Remaining(rows, cursor.partitions, scopes) == out + Remaining(rows, parts, scopes)
      decreases |Remaining(rows, parts, scopes)|
    {
      var batch := ReplayCursor(rows, listed, Cursor(cursor.scalar, parts), scopes, limit);
      CursorBatchIsFirst(rows, listed, Cursor(cursor.scalar, parts), scopes, limit);
      ResumeIsExact(rows, parts, scopes, PageSize(limit));
      if batch == [] {
        return;
      }
      ghost var rest := Remaining(rows, parts, scopes);
      assert out + rest == (out + batch) + Remaining(rows, ObservePartitions(parts, batch), scopes);
      out := out + batch;
      parts := ObservePartitions(parts, batch);
    }
  }

  // ---- Resuming with an observed cursor --------------------------------------------------------

  /** Observing an event raises the scalar sequence as well. */
  function Observe(cursor: Cursor, row: Row): Cursor {
    Cursor(Greater(row.scalar, cursor.scalar),
           if row.partition.Normal() && row.offset > 0 then ObservePartition(cursor.partitions, row) else cursor.partitions)
  }

  function ObserveAll(cursor: Cursor, rows: seq<Row>): Cursor {
    if rows == [] then cursor else Observe(ObserveAll(cursor, rows[..|rows| - 1]), rows[|rows| - 1])
  }

  /** Everything a replay from this cursor runs over, before any limit. */
  function Pending(rows: seq<Row>, cursor: Cursor, scopes: Option<seq<string>>): seq<Row> {
    if ByScalar(cursor) then ScalarRest(rows, cursor.scalar, scopes) else Remaining(rows, cursor.partitions, scopes)
  }

  lemma {:induction false} ObservedScalar(cursor: Cursor, rows: seq<Row>)
    requires Ascending(rows) && rows != [] && cursor.scalar <= rows[0].scalar
    ensures ObserveAll(cursor, rows).scalar == rows[|rows| - 1].scalar
  {
    hide ObservePartition;
    if |rows| > 1 {
      ObservedScalar(cursor, rows[..|rows| - 1]);
    } else {
      assert rows[..0] == [];
    }
  }

  lemma {:induction false} MatchingSound(rows: seq<Row>, scopes: Option<seq<string>>)
    requires Ascending(rows)
    ensures Ascending(Matching(rows, scopes)) && forall row :: row in Matching(rows, scopes) <==>
              row in rows && Wanted(scopes, row)
  {
    hide Wanted;
    if rows != [] {
      var n := |rows| - 1;
      MatchingSound(rows[..n], scopes);
      assert rows == rows[..n] + [rows[n]];
      var init := Matching(rows[..n], scopes);
      forall i | 0 <= i < |init| ensures init[i].scalar < rows[n].scalar {
        assert init[i] in rows[..n];
      }
    }
  }

  lemma AscendingIsOrdered(rows: seq<Row>)
    requires Ascending(rows)
    ensures Ordered(rows)
  {
  }

  lemma ScalarRestSound(rows: seq<Row>, scalar: int, scopes: Option<seq<string>>)
    requires TableSound(rows) && scalar >= 0
    ensures Ordered(ScalarRest(rows, scalar, scopes))
    ensures forall row :: row in ScalarRest(rows, scalar, scopes) <==>
              row in rows && row.scalar > scalar && Wanted(scopes, row)
  {
    hide RowsAfter, Sorted, Matching, Wanted, Ordered;
    V.AfterHolds(rows, scalar);
    V.SortedHolds(RowsAfter(rows, scalar));
    MatchingSound(Sorted(RowsAfter(rows, scalar)), scopes);
    AscendingIsOrdered(ScalarRest(rows, scalar, scopes));
  }

  /** No row in scope past this sequence is already behind the cursor. */
  ghost predicate NothingSeenAhead(rows: seq<Row>, parts: seq<PartitionCursor>, scopes: Option<seq<string>>,
                                   scalar: int) {
    forall row :: row in rows && Wanted(scopes, row) && row.scalar > scalar ==> Due(parts, scopes, row)
  }

  /** In replay order, what follows the first n rows has later sequences. */
  lemma RemainingByScalar(rows: seq<Row>, parts: seq<PartitionCursor>, scopes: Option<seq<string>>, n: nat, i: nat)
    requires TableSound(rows) && 0 < n <= |Remaining(rows, parts, scopes)| && i < |Remaining(rows, parts, scopes)|
    ensures i >= n <==> Remaining(rows, parts, scopes)[i].scalar > Remaining(rows, parts, scopes)[n - 1].scalar
  {
    hide Remaining, Due;
    var rest := Remaining(rows, parts, scopes);
    RemainingSound(rows, parts, scopes);
    SequencesDiffer(rows, rest, n - 1, i);
  }

  lemma SequencesDiffer(rows: seq<Row>, rest: seq<Row>, a: nat, b: nat)
    requires TableSound(rows) && Ordered(rest) && a < |rest| && b < |rest| && rest[a] in rows && rest[b] in rows
    ensures a < b <==> rest[a].scalar < rest[b].scalar
  {
    IndexOrder(rest, a, b);
    IndexOrder(rest, b, a);
    var i :| 0 <= i < |rows| && rows[i] == rest[a];
    var j :| 0 <= j < |rows| && rows[j] == rest[b];
    if a == b {
      assert rest[a] == rest[b];
    }
  }

  /** Resuming with the observed cursor goes by sequence.  It never loses a row, and it
      repeats none if and only if no row in scope past the last one delivered was
      already behind a partition offset of the cursor. */
  lemma ObservedResumeExactly(rows: seq<Row>, cursor: Cursor, scopes: Option<seq<string>>, limit: nat)
    requires TableSound(rows) && Numbered(rows) && (forall i :: 0 <= i < |rows| ==> rows[i].scalar > 0)
    requires !ByScalar(cursor) && limit > 0 && Remaining(rows, cursor.partitions, scopes) != []
    ensures
      var rest := Remaining(rows, cursor.partitions, scopes);
      var batch := Cap(rest, limit);
      var cursor' := ObserveAll(cursor, batch);
      && (forall row :: row in rest ==> row in batch || row in Pending(rows, cursor', scopes))
      && (rest == batch + Pending(rows, cursor', scopes)
          <==> NothingSeenAhead(rows, cursor.partitions, scopes, batch[|batch| - 1].scalar))
  {
    hide Remaining, Due, ScalarRest, ObservePartitions, ObservePartition, Ordered, TableSound, Wanted;
    var parts := cursor.partitions;
    var rest := Remaining(rows, parts, scopes);
    var batch := Cap(rest, limit);
    var n := |batch|;
    RemainingSound(rows, parts, scopes);
    BatchObserved(rows, cursor, rest, batch);
    var last := batch[n - 1].scalar;
    var cursor' := ObserveAll(cursor, batch);
    ScalarRestSound(rows, last, scopes);
    forall i | 0 <= i < |rest| ensures i >= n <==> rest[i].scalar > last {
      RemainingByScalar(rows, parts, scopes, n, i);
    }
    TailMembers(rest, n, last);
    OrderedTail(rest, n);
    var later := ScalarRest(rows, last, scopes);
    forall row | row in rows && Due(parts, scopes, row) ensures Wanted(scopes, row) {
      DueIsWanted(parts, scopes, row);
    }
    assert rest == batch + rest[n..];
    if NothingSeenAhead(rows, parts, scopes, last) {
      OrderedUnique(rest[n..], later);
    }
    if rest == batch + later {
      assert rest[n..] == later;
    }
  }

  lemma DueIsWanted(parts: seq<PartitionCursor>, scopes: Option<seq<string>>, row: Row)
    requires Due(parts, scopes, row)
    ensures Wanted(scopes, row)
  {
  }

  lemma TailMembers(rest: seq<Row>, n: nat, last: int)
    requires n <= |rest| && forall i :: 0 <= i < |rest| ==> (i >= n <==> rest[i].scalar > last)
    ensures forall row :: row in rest[n..] <==> row in rest && row.scalar > last
    ensures forall row :: row in rest ==> row in rest[..n] || row in rest[n..]
  {
    assert rest == rest[..n] + rest[n..];
    forall row | row in rest && row.scalar > last ensures row in rest[n..] {
      var i :| 0 <= i < |rest| && rest[i] == row;
      assert rest[n..][i - n] == row;
    }
  }

  lemma BatchObserved(rows: seq<Row>, cursor: Cursor, rest: seq<Row>, batch: seq<Row>)
    requires TableSound(rows) && Numbered(rows) && (forall i :: 0 <= i < |rows| ==> rows[i].scalar > 0)
    requires cursor.scalar <= 0 && batch != [] && batch <= rest && Ordered(rest) && forall row :: row in rest ==>
              row in rows
    ensures ObserveAll(cursor, batch).scalar == batch[|batch| - 1].scalar > 0
  {
    hide ObserveAll;
    forall i, j | 0 <= i < j < |batch| ensures batch[i].scalar < batch[j].scalar {
      assert rest[i] in rest && rest[j] in rest;
      SequencesDiffer(rows, rest, i, j);
    }
    assert batch[0] == rest[0] && batch[|batch| - 1] == rest[|batch| - 1];
    assert rest[0] in rows && rest[|batch| - 1] in rows;
    ObservedScalar(cursor, batch);
  }

  /** The repeat at an input: partition a is seen up to offset 1 at sequence 9, row 1
      of partition b has sequence 5.  After delivering that row the observed cursor
      goes by sequence 5 and returns the row of a again. */
  lemma ObservedCursorRepeats(a: Partition, b: Partition, e: EventRecord)
    requires a.Normal() && b.Normal() && a != b
    ensures
      var rows := [Row(5, b, 1, e), Row(9, a, 1, e)];
      var cursor := Cursor(0, [PartitionCursor(a, 1)]);
      && Remaining(rows, cursor.partitions, None) == [Row(5, b, 1, e)]
      && Pending(rows, ObserveAll(cursor, [Row(5, b, 1, e)]), None) == [Row(9, a, 1, e)]
      && AfterOf(cursor.partitions, a) == 1
  {
    hide Remaining, ScalarRest;
    var first, seen := Row(5, b, 1, e), Row(9, a, 1, e);
    var rows, cursor := [first, seen], Cursor(0, [PartitionCursor(a, 1)]);
    OneRemains(a, first, seen);
    assert [first][..0] == [];
    assert ObserveAll(cursor, [first]).scalar == 5;
    OneAfter(first, seen);
  }

  lemma OneRemains(a: Partition, first: Row, seen: Row)
    requires a.Normal() && seen.partition == a && seen.offset == 1 && first.partition.Normal() && first.partition != a
    requires first.offset == 1
    ensures Remaining([first, seen], [PartitionCursor(a, 1)], None) == [first]
    ensures AfterOf([PartitionCursor(a, 1)], a) == 1
  {
    var rows, parts := [first, seen], [PartitionCursor(a, 1)];
    assert rows[..1] == [first] && [first][..0] == [] && parts[..0] == [];
    assert AfterOf(parts, a) == 1 && AfterOf(parts, first.partition) == 0;
    assert Remaining([first], parts, None) == [first];
  }

  lemma OneAfter(first: Row, seen: Row)
    requires first.scalar == 5 && seen.scalar == 9
    ensures ScalarRest([first, seen], 5, None) == [seen]
  {
    var rows := [first, seen];
    assert rows[..1] == [first] && [first][..0] == [] && [seen][..0] == [];
    assert RowsAfter([first], 5) == [] && [] + [seen] == [seen];
    assert RowsAfter(rows, 5) == [seen] && Sorted([seen]) == [seen];
    MatchingAll([seen]);
  }
}
