/** Which tables a cursor replay meets: every table that gated appends write is one
    where offsets agree with sequences, an indexer's need not be, and exactly what an
    observed cursor loses where they do not. */
module ReplayTables {
  import opened LogModel
  import opened BrokerEventLog
  import opened SqlEventLog
  import opened DerivedView
  import opened ReplayOrder
  import opened CursorReplay
  import V = SqlViews

  // ---- Tables written through the gate -----------------------------------------------------

  /** An event is always appended to a partition with a kind and a key. */
  ghost predicate NormalAppends(steps: seq<Step>) {
    forall j :: 0 <= j < |steps| && steps[j].Gate? ==> steps[j].partition.Normal()
  }

  ghost predicate RowsNormal(rows: seq<Row>) {
    forall i :: 0 <= i < |rows| ==> rows[i].partition.Normal()
  }

  ghost predicate TxNormal(tx: Tx) {
    RowsNormal(tx.rows) && (tx.phase.Ready? || tx.phase.partition.Normal())
  }

  ghost predicate AllNormal<S>(s: Database<S>) {
    RowsNormal(s.rows) && forall t :: t in s.open ==> TxNormal(s.open[t])
  }

  lemma NormalStep<S>(apply: (S, Row) -> S, s: Database<S>, s': Database<S>, step: Step)
    requires AllNormal(s) && Take(apply, s, step) == Some(s') && (step.Gate? ==> step.partition.Normal())
    ensures AllNormal(s')
  {
    hide BatchAfter, Applied, Locked, Local;
    if step.Gate? || step.Number? || step.Insert? || step.Index? || step.NoteOffset? || step.Commit? {
      assert TxNormal(s.open[step.t]);
    }
  }

  lemma {:induction false} NormalRun<S(!new)>(apply: (S, Row) -> S, init: S, states: seq<Database<S>>, steps: seq<Step>, i: nat)
    requires Run(apply, init, states, steps) && i < |states| && NormalAppends(steps)
    ensures AllNormal(states[i])
  {
    hide Take;
    if i > 0 {
      NormalRun(apply, init, states, steps, i - 1);
      NormalStep(apply, states[i - 1], states[i], steps[i - 1]);
    }
  }

  /** Rows of one counter keep their order. */
  lemma {:induction false} RowsOfAt(rows: seq<Row>, p: Partition, i: nat) returns (a: nat)
    requires i < |rows| && Counter(rows[i].partition) == p
    ensures a < |RowsOf(rows, p)| && RowsOf(rows, p)[a] == rows[i] && a == |RowsOf(rows[..i], p)|
  {
    var n := |rows| - 1;
    if i < n {
      a := RowsOfAt(rows[..n], p, i);
      assert rows[..n][..i] == rows[..i];
    } else {
      a := |RowsOf(rows[..n], p)|;
    }
  }

  lemma RowsOfOrder(rows: seq<Row>, p: Partition, i: nat, j: nat) returns (a: nat, b: nat)
    requires i < j < |rows| && Counter(rows[i].partition) == p && Counter(rows[j].partition) == p
    ensures a < b < |RowsOf(rows, p)| && RowsOf(rows, p)[a] == rows[i] && RowsOf(rows, p)[b] == rows[j]
  {
    a := RowsOfAt(rows, p, i);
    b := RowsOfAt(rows, p, j);
    var c := RowsOfAt(rows[..j], p, i);
    assert rows[..j][..i] == rows[..i];
  }

  /** Counted rows have offsets that agree with their order. */
  lemma CountedAgrees<S>(s: Database<S>)
    requires GateInv(s) && s.indexed == {} && RowsNormal(s.native)
    ensures TableSound(s.native) && CursorReplay.Numbered(s.native)
    ensures forall k :: 0 <= k < |s.native| ==> s.native[k].scalar > 0 && s.native[k].partition in s.offsets
  {
    hide TxSound, Counted;
    var rows := s.native;
    forall k | 0 <= k < |rows| ensures rows[k].offset > 0 && rows[k].partition in s.offsets {
      var a := RowsOfAt(rows, rows[k].partition, k);
      OffsetAt(s, rows[k].partition, a);
    }
    forall i, j | 0 <= i < j < |rows| && rows[i].partition == rows[j].partition
      ensures rows[i].offset < rows[j].offset
    {
      var p := rows[i].partition;
      var a, b := RowsOfOrder(rows, p, i, j);
      OffsetAt(s, p, a);
      OffsetAt(s, p, b);
    }
  }

  lemma OffsetAt<S>(s: Database<S>, p: Partition, a: nat)
    requires GateInv(s) && s.indexed == {} && a < |RowsOf(s.native, p)|
    ensures RowsOf(s.native, p)[a].offset == a + 1 && p in s.offsets
  {
    hide TxSound;
    assert Counted(s.native, p, OffsetOf(s.offsets, p));
  }

  /** Where every writer takes the gate, every table of every run agrees, and every
      partition of a row has an offset row. */
  lemma GatedTableAgrees<S(!new)>(apply: (S, Row) -> S, init: S, states: seq<Database<S>>, steps: seq<Step>, i: nat)
    requires Run(apply, init, states, steps) && i < |states| && NormalAppends(steps)
    requires forall j :: 0 <= j < |steps| && steps[j].Begin? ==> steps[j].gated
    ensures TableSound(states[i].rows) && CursorReplay.Numbered(states[i].rows)
    ensures forall k :: 0 <= k < |states[i].rows| ==>
              states[i].rows[k].scalar > 0 && states[i].rows[k].partition in states[i].offsets
  {
    hide Run, GateInv, TableSound, CursorReplay.Numbered, V.AllClear;
    GateRun(apply, init, states, steps, i);
    V.GatedRun(apply, init, states, steps, i);
    NormalRun(apply, init, states, steps, i);
    CountedAgrees(states[i]);
  }

  /** So in every state of such a run a partition cursor returns exactly the first
      `limit` matching rows of the whole remaining log. */
  lemma GatedReplayIsFirst<S(!new)>(apply: (S, Row) -> S, init: S, states: seq<Database<S>>, steps: seq<Step>, i: nat,
                                    listed: seq<Partition>, cursor: Cursor, scopes: Option<seq<string>>, limit: int)
    requires Run(apply, init, states, steps) && i < |states| && NormalAppends(steps)
    requires forall j :: 0 <= j < |steps| && steps[j].Begin? ==> steps[j].gated
    requires !ByScalar(cursor) && forall p :: p in states[i].offsets ==> p in listed
    ensures CursorBatch(states[i].rows, listed, cursor, scopes, limit) ==
            Cap(Remaining(states[i].rows, cursor.partitions, scopes), PageSize(limit))
  {
    hide Run, TableSound, CursorReplay.Numbered, CursorBatch, Remaining;
    GatedTableAgrees(apply, init, states, steps, i);
    CursorBatchIsFirst(states[i].rows, listed, cursor, scopes, limit);
  }

  // ---- A table with an indexer's row ----------------------------------------------------------

  /** The failing input: an append takes offset 1 of a partition, and the indexer then
      stores an event that has offset 1 in its own log.  The table disagrees, and a
      cursor that has seen the first row never gets to the second. */
  lemma IndexerBreaksAgreement(apply: (seq<int>, Row) -> seq<int>, e: EventRecord, f: EventRecord, p: Partition)
    requires p.Normal()
    ensures
      var s1 := V.TakeAll(apply, Start([], {}), V.Appending(0, p, e));
      && s1.Some?
      && var s2 := Take(apply, s1.value, Commit(0));
      && s2.Some?
      && var s3 := V.TakeAll(apply, s2.value, V.Indexing(1, p, 1, f));
      && s3.Some? && s3.value.rows == [Row(1, p, 1, e), Row(2, p, 1, f)] && !TableSound(s3.value.rows)
      && Remaining(s3.value.rows, ObservePartitions([PartitionCursor(p, 0)], [Row(1, p, 1, e)]), None) == []
  {
    hide V.TakeAll, Locked, Remaining;
    var s0: Database<seq<int>> := Start([], {});
    V.NotLocked(s0.open, 0, p);
    V.AppendingTakes(apply, s0, 0, p, e);
    var s1 := V.TakeAll(apply, s0, V.Appending(0, p, e)).value;
    var s2 := Take(apply, s1, Commit(0)).value;
    assert s2.rows == [Row(1, p, 1, e)] && s2.open == map[];
    V.NotLocked(s2.open, 1, p);
    V.IndexingTakes(apply, s2, 1, p, 1, f);
    var s3 := V.TakeAll(apply, s2, V.Indexing(1, p, 1, f)).value;
    assert s3.rows == [Row(1, p, 1, e), Row(2, p, 1, f)];
    assert s3.rows[0].offset == s3.rows[1].offset;
    BothBehind(Row(1, p, 1, e), Row(2, p, 1, f));
  }

  lemma BothBehind(a: Row, b: Row)
    requires a.partition == b.partition && a.partition.Normal() && a.offset == 1 && b.offset == 1
    ensures Remaining([a, b], ObservePartitions([PartitionCursor(a.partition, 0)], [a]), None) == []
  {
    var parts := ObservePartitions([PartitionCursor(a.partition, 0)], [a]);
    assert [a][..0] == [] && [a, b][..1] == [a];
    var start := [PartitionCursor(a.partition, 0)];
    assert ObservePartitions(start, []) == start;
    assert ObservePartition(start, a) == [PartitionCursor(a.partition, 1)] + start[1..];
    assert parts == [PartitionCursor(a.partition, 1)];
    assert parts[..0] == [];
    assert AfterOf(parts, a.partition) == 1;
    assert Remaining([a], parts, None) == [];
  }

  // ---- What an observed cursor loses, exactly -----------------------------------------------------

  ghost predicate Climbing(rows: seq<Row>) {
    forall i, j :: 0 <= i < j < |rows| ==> rows[i].scalar <= rows[j].scalar
  }

  lemma {:induction false} InsertedClimbs(rows: seq<Row>, row: Row)
    requires Climbing(rows)
    ensures Climbing(Inserted(rows, row))
  {
    if rows != [] && Before(row, rows[|rows| - 1]) {
      InsertedClimbs(rows[..|rows| - 1], row);
      InsertedMembers(rows[..|rows| - 1], row);
      assert forall r :: r in rows[..|rows| - 1] ==> r.scalar <= rows[|rows| - 1].scalar;
    }
  }

  /** Whatever is sorted comes out by sequence. */
  lemma {:induction false} SortClimbs(rows: seq<Row>)
    ensures Climbing(SortRows(rows))
  {
    hide Inserted;
    if rows != [] {
      SortClimbs(rows[..|rows| - 1]);
      InsertedClimbs(SortRows(rows[..|rows| - 1]), rows[|rows| - 1]);
    }
  }

  lemma {:induction false} SlottedMembers(rows: seq<Row>, row: Row)
    ensures forall r :: r in Slotted(rows, row) <==> r in rows || r == row
  {
    if rows != [] && EarlierOffset(row, rows[|rows| - 1]) {
      SlottedMembers(rows[..|rows| - 1], row);
      assert rows == rows[..|rows| - 1] + [rows[|rows| - 1]];
    }
  }

  lemma {:induction false} ByOffsetMembers(rows: seq<Row>)
    ensures forall r :: r in ByOffset(rows) <==> r in rows
  {
    if rows != [] {
      ByOffsetMembers(rows[..|rows| - 1]);
      SlottedMembers(ByOffset(rows[..|rows| - 1]), rows[|rows| - 1]);
      assert rows == rows[..|rows| - 1] + [rows[|rows| - 1]];
    }
  }

  lemma {:induction false} InPartitionMembers(rows: seq<Row>, p: Partition, after: int)
    ensures forall r :: r in InPartition(rows, p, after) <==> r in rows && r.partition == p && r.offset > after
  {
    if rows != [] {
      InPartitionMembers(rows[..|rows| - 1], p, after);
      assert rows == rows[..|rows| - 1] + [rows[|rows| - 1]];
    }
  }

  /** A partition's query gives its due rows, whatever the table. */
  lemma QueriedMembers(rows: seq<Row>, parts: seq<PartitionCursor>, scopes: Option<seq<string>>, p: Partition)
    requires p.Normal()
    ensures forall r :: r in Queried(rows, p, AfterOf(parts, p), scopes) <==>
              r in rows && r.partition == p && Due(parts, scopes, r)
  {
    hide AfterOf, Wanted, InPartition, ByOffset, Matching;
    var mine := InPartition(rows, p, AfterOf(parts, p));
    InPartitionMembers(rows, p, AfterOf(parts, p));
    ByOffsetMembers(mine);
    MatchingMembers(ByOffset(mine), scopes);
  }

  /** The page of one partition that goes into the merge. */
  function PageOf(rows: seq<Row>, parts: seq<PartitionCursor>, scopes: Option<seq<string>>, p: Partition,
                  limit: int): seq<Row> {
    Cap(Queried(rows, p, AfterOf(parts, p), scopes), PageSize(limit))
  }

  /** What is merged, before the second cut. */
  function Merged(rows: seq<Row>, listed: seq<Partition>, parts: seq<PartitionCursor>, scopes: Option<seq<string>>,
                  limit: int): seq<Row> {
    SortRows(Concat(Cut(Queries(rows, parts, scopes, ToRead(listed, parts)), PageSize(limit))))
  }

  lemma CapMember(rows: seq<Row>, limit: nat, row: Row)
    requires row in Cap(rows, limit)
    ensures row in rows
  {
  }

  /** A due row is merged if and only if it is in the page of its own partition. */
  lemma MergedMembers(rows: seq<Row>, listed: seq<Partition>, parts: seq<PartitionCursor>, scopes: Option<seq<string>>,
                      limit: int, row: Row)
    requires RowsNormal(rows) && Covers(listed, rows) && row in rows
    ensures row in Merged(rows, listed, parts, scopes, limit) <==>
              row in PageOf(rows, parts, scopes, row.partition, limit)
  {
    hide AfterOf, Queried, SortRows, Concat, Once, SortPartitions, PartitionLess, Due, Cap;
    var partitions := ToRead(listed, parts);
    var pages := Cut(Queries(rows, parts, scopes, partitions), PageSize(limit));
    SortMembers(Concat(pages));
    ConcatMembers(pages, row);
    ReadsAll(rows, listed, parts, row);
    var k :| 0 <= k < |partitions| && partitions[k] == row.partition;
    assert pages[k] == PageOf(rows, parts, scopes, row.partition, limit);
    if i :| 0 <= i < |pages| && row in pages[i] {
      CapMember(Queried(rows, partitions[i], AfterOf(parts, partitions[i]), scopes), PageSize(limit), row);
      ReadsNormal(listed, parts, i);
      QueriedMembers(rows, parts, scopes, partitions[i]);
      assert pages[i] == PageOf(rows, parts, scopes, row.partition, limit);
    }
  }

  lemma ReadsAll(rows: seq<Row>, listed: seq<Partition>, parts: seq<PartitionCursor>, row: Row)
    requires RowsNormal(rows) && Covers(listed, rows) && row in rows
    ensures row.partition.Normal() && row.partition in ToRead(listed, parts)
  {
    hide Once, SortPartitions, PartitionLess;
    ReadInOrder(listed, parts);
    var k :| 0 <= k < |rows| && rows[k] == row;
    var m :| 0 <= m < |listed| && listed[m] == rows[k].partition;
    assert listed[m].Normalize() == row.partition;
  }

  lemma ReadsNormal(listed: seq<Partition>, parts: seq<PartitionCursor>, i: nat)
    requires i < |ToRead(listed, parts)|
    ensures ToRead(listed, parts)[i].Normal()
  {
    hide Once, SortPartitions, PartitionLess;
    ReadInOrder(listed, parts);
    assert ToRead(listed, parts)[i] in ToRead(listed, parts);
  }

  lemma MergedFromTable(rows: seq<Row>, listed: seq<Partition>, parts: seq<PartitionCursor>,
                        scopes: Option<seq<string>>, limit: int, row: Row)
    requires row in Merged(rows, listed, parts, scopes, limit)
    ensures row in rows
  {
    hide AfterOf, Queried, SortRows, Concat, ToRead, Due, Cap;
    var partitions := ToRead(listed, parts);
    var pages := Cut(Queries(rows, parts, scopes, partitions), PageSize(limit));
    SortMembers(Concat(pages));
    ConcatMembers(pages, row);
    var i :| 0 <= i < |pages| && row in pages[i];
    CapMember(Queried(rows, partitions[i], AfterOf(parts, partitions[i]), scopes), PageSize(limit), row);
    ReadsNormal(listed, parts, i);
    QueriedMembers(rows, parts, scopes, partitions[i]);
  }

  lemma {:induction false} ObservedHead(cursor: Cursor, rows: seq<Row>)
    requires cursor.scalar <= 0 && forall i :: 0 <= i < |rows| ==> rows[i].scalar > 0
    ensures rows != [] ==> ObserveAll(cursor, rows).scalar == Head(rows)
    ensures rows == [] ==> ObserveAll(cursor, rows).scalar == cursor.scalar
  {
    hide ObservePartition;
    if rows != [] {
      ObservedHead(cursor, rows[..|rows| - 1]);
    }
  }

  /** Where sequences are only known to differ, a due row is lost to an observed cursor
      if and only if it was cut from the page of its own partition although its
      sequence is no higher than the last one delivered.  The second cut loses nothing. */
  lemma ObservedLosesExactly(rows: seq<Row>, listed: seq<Partition>, cursor: Cursor, scopes: Option<seq<string>>,
                             limit: int, row: Row)
    requires V.Differ(rows) && RowsNormal(rows) && (forall i :: 0 <= i < |rows| ==> rows[i].scalar > 0)
    requires Covers(listed, rows)
    requires !ByScalar(cursor) && row in rows && Due(cursor.partitions, scopes, row)
    ensures
      var batch := CursorBatch(rows, listed, cursor, scopes, limit);
      row !in batch && row !in Pending(rows, ObserveAll(cursor, batch), scopes)
      <==> row !in PageOf(rows, cursor.partitions, scopes, row.partition, limit) && row.scalar <= Head(batch)
  {
    hide AfterOf, Queried, SortRows, Concat, ToRead, Merged, PageOf, Due, ScalarRest, Remaining, ObserveAll, V.Differ,
         Head, RowsNormal, Covers;
    var parts := cursor.partitions;
    var merged := Merged(rows, listed, parts, scopes, limit);
    var batch := CursorBatch(rows, listed, cursor, scopes, limit);
    BatchOfMerged(rows, listed, cursor, scopes, limit);
    MergedMembers(rows, listed, parts, scopes, limit, row);
    BatchNotEmpty(rows, listed, cursor, scopes, limit, row);
    forall i | 0 <= i < |batch| ensures batch[i] in rows && batch[i].scalar > 0 {
      assert batch[i] == merged[i];
      MergedFromTable(rows, listed, parts, scopes, limit, batch[i]);
    }
    ObservedHead(cursor, batch);
    assert batch[0].scalar <= Head(batch);
    RestMembers(rows, Head(batch), scopes, row);
    DueIsWanted(parts, scopes, row);
    if row !in batch && row in merged {
      BehindMerged(rows, merged, batch, row);
    }
  }

  lemma BatchOfMerged(rows: seq<Row>, listed: seq<Partition>, cursor: Cursor, scopes: Option<seq<string>>, limit: int)
    requires !ByScalar(cursor)
    ensures
      var merged, batch := Merged(rows, listed, cursor.partitions, scopes, limit), CursorBatch(rows, listed, cursor, scopes, limit);
      batch == Cap(merged, PageSize(limit)) && batch <= merged && Climbing(merged)
  {
    hide SortRows, Concat, ToRead, Queries;
    SortClimbs(Concat(Cut(Queries(rows, cursor.partitions, scopes, ToRead(listed, cursor.partitions)),
                          PageSize(limit))));
  }

  /** A partition with a due row fills at least one place. */
  lemma BatchNotEmpty(rows: seq<Row>, listed: seq<Partition>, cursor: Cursor, scopes: Option<seq<string>>, limit: int, row: Row)
    requires RowsNormal(rows) && Covers(listed, rows) && !ByScalar(cursor) && row in rows
    requires Due(cursor.partitions, scopes, row)
    ensures CursorBatch(rows, listed, cursor, scopes, limit) != []
  {
    hide AfterOf, Queried, Merged, Due, CursorBatch, ToRead;
    var parts := cursor.partitions;
    ReadsAll(rows, listed, parts, row);
    QueriedMembers(rows, parts, scopes, row.partition);
    var page := PageOf(rows, parts, scopes, row.partition, limit);
    assert page != [];
    CapMember(Queried(rows, row.partition, AfterOf(parts, row.partition), scopes), PageSize(limit), page[0]);
    MergedMembers(rows, listed, parts, scopes, limit, page[0]);
    BatchOfMerged(rows, listed, cursor, scopes, limit);
  }

  lemma RestMembers(rows: seq<Row>, scalar: int, scopes: Option<seq<string>>, row: Row)
    requires V.Differ(rows) && scalar >= 0
    ensures row in ScalarRest(rows, scalar, scopes) <==> row in rows && row.scalar > scalar && Wanted(scopes, row)
  {
    hide RowsAfter, Sorted, Matching, Wanted;
    V.AfterHolds(rows, scalar);
    V.SortedHolds(RowsAfter(rows, scalar));
    MatchingMembers(Sorted(RowsAfter(rows, scalar)), scopes);
  }

  /** What the second cut leaves behind comes later by sequence. */
  lemma BehindMerged(rows: seq<Row>, merged: seq<Row>, batch: seq<Row>, row: Row)
    requires V.Differ(rows) && Climbing(merged) && batch <= merged && row in merged && row !in batch && row in rows
    requires row.scalar > 0
    requires forall r :: r in batch ==> r in rows
    ensures row.scalar > Head(batch)
  {
    hide Head;
    var k :| 0 <= k < |merged| && merged[k] == row;
    if Head(batch) != 0 {
      var i :| 0 <= i < |batch| && batch[i].scalar == Head(batch);
      assert merged[i] == batch[i] && batch[i] in rows;
      assert k >= |batch|;
      var a :| 0 <= a < |rows| && rows[a] == batch[i];
      var b :| 0 <= b < |rows| && rows[b] == row;
    }
  }

  // ---- When the batch is the first of what remains, exactly -------------------------------------

  lemma {:induction false} RemainingMembers(rows: seq<Row>, parts: seq<PartitionCursor>, scopes: Option<seq<string>>)
    ensures forall r :: r in Remaining(rows, parts, scopes) <==> r in rows && Due(parts, scopes, r)
    ensures V.Differ(rows) ==> V.Differ(Remaining(rows, parts, scopes))
  {
    hide Due;
    if rows != [] {
      var n := |rows| - 1;
      RemainingMembers(rows[..n], parts, scopes);
      assert rows == rows[..n] + [rows[n]];
      if V.Differ(rows) {
        DifferMore(Remaining(rows[..n], parts, scopes), rows);
      }
    }
  }

  /** Earlier rows of the table do not share the sequence of its last one. */
  lemma DifferMore(some: seq<Row>, rows: seq<Row>)
    requires rows != [] && V.Differ(rows) && V.Differ(some) && forall r :: r in some ==> r in rows[..|rows| - 1]
    ensures V.Differ(some + [rows[|rows| - 1]])
  {
    forall i | 0 <= i < |some| ensures some[i].scalar != rows[|rows| - 1].scalar {
      assert some[i] in some;
      var k :| 0 <= k < |rows| - 1 && rows[..|rows| - 1][k] == some[i];
    }
  }

  lemma {:induction false} InPartitionDiffer(rows: seq<Row>, p: Partition, after: int)
    requires V.Differ(rows)
    ensures V.Differ(InPartition(rows, p, after))
  {
    if rows != [] {
      var n := |rows| - 1;
      InPartitionDiffer(rows[..n], p, after);
      InPartitionMembers(rows[..n], p, after);
      DifferMore(InPartition(rows[..n], p, after), rows);
    }
  }

  lemma {:induction false} MatchingDiffer(rows: seq<Row>, scopes: Option<seq<string>>)
    requires V.Differ(rows)
    ensures V.Differ(Matching(rows, scopes))
  {
    hide Wanted;
    if rows != [] {
      var n := |rows| - 1;
      MatchingDiffer(rows[..n], scopes);
      MatchingMembers(rows[..n], scopes);
      DifferMore(Matching(rows[..n], scopes), rows);
    }
  }

  lemma {:induction false} SlottedDiffer(rows: seq<Row>, row: Row)
    requires V.Differ(rows) && forall r :: r in rows ==> r.scalar != row.scalar
    ensures V.Differ(Slotted(rows, row))
  {
    if rows != [] && EarlierOffset(row, rows[|rows| - 1]) {
      var init, last := rows[..|rows| - 1], rows[|rows| - 1];
      SlottedDiffer(init, row);
      SlottedMembers(init, row);
      forall r | r in Slotted(init, row) ensures r.scalar != last.scalar {
        if r in init {
          var i :| 0 <= i < |init| && init[i] == r;
        }
      }
    }
  }

  lemma {:induction false} ByOffsetDiffer(rows: seq<Row>)
    requires V.Differ(rows)
    ensures V.Differ(ByOffset(rows))
  {
    hide Slotted;
    if rows != [] {
      var init, last := rows[..|rows| - 1], rows[|rows| - 1];
      ByOffsetDiffer(init);
      ByOffsetMembers(init);
      forall r | r in ByOffset(init) ensures r.scalar != last.scalar {
        var i :| 0 <= i < |init| && init[i] == r;
      }
      SlottedDiffer(ByOffset(init), last);
    }
  }

  lemma QueriedDiffer(rows: seq<Row>, p: Partition, after: int, scopes: Option<seq<string>>)
    requires V.Differ(rows)
    ensures V.Differ(Queried(rows, p, after, scopes))
  {
    hide InPartition, ByOffset, Matching;
    if p.Normal() {
      InPartitionDiffer(rows, p, after);
      ByOffsetDiffer(InPartition(rows, p, after));
      MatchingDiffer(ByOffset(InPartition(rows, p, after)), scopes);
    }
  }

  /** Lists of rows of one table, each of its own partition and without repetition. */
  ghost predicate Pages(rows: seq<Row>, pages: seq<seq<Row>>, partitions: seq<Partition>) {
    && |pages| == |partitions| && Distinct(partitions)
    && (forall i :: 0 <= i < |pages| ==> V.Differ(pages[i]))
    && (forall i, r :: 0 <= i < |pages| && r in pages[i] ==> r in rows && r.partition == partitions[i])
  }

  lemma {:induction false} ConcatDiffer(rows: seq<Row>, pages: seq<seq<Row>>, partitions: seq<Partition>)
    requires V.Differ(rows) && Pages(rows, pages, partitions)
    ensures V.Differ(Concat(pages))
  {
    if pages != [] {
      var n := |pages| - 1;
      ConcatDiffer(rows, pages[..n], partitions[..n]);
      forall a, b | a in Concat(pages[..n]) && b in pages[n] ensures a.scalar != b.scalar {
        ConcatMembers(pages[..n], a);
        var k :| 0 <= k < n && a in pages[..n][k];
        assert a in pages[k] && partitions[k] != partitions[n];
        DifferentRows(rows, a, b);
      }
    }
  }

  lemma DifferentRows(rows: seq<Row>, a: Row, b: Row)
    requires V.Differ(rows) && a in rows && b in rows && a != b
    ensures a.scalar != b.scalar
  {
    var i :| 0 <= i < |rows| && rows[i] == a;
    var j :| 0 <= j < |rows| && rows[j] == b;
  }

  lemma DifferOrdered(rows: seq<Row>)
    requires V.Differ(rows)
    ensures Ordered(SortRows(rows))
  {
    SortOrdered(rows);
  }

  lemma MergedOrdered(rows: seq<Row>, listed: seq<Partition>, parts: seq<PartitionCursor>, scopes: Option<seq<string>>, limit: int)
    requires V.Differ(rows)
    ensures Ordered(Merged(rows, listed, parts, scopes, limit))
  {
    hide AfterOf, Queried, SortRows, Concat, ToRead, Due, V.Differ, Ordered, Distinct;
    var partitions := ToRead(listed, parts);
    var pages := Cut(Queries(rows, parts, scopes, partitions), PageSize(limit));
    forall i | 0 <= i < |pages| ensures V.Differ(pages[i]) {
      QueriedDiffer(rows, partitions[i], AfterOf(parts, partitions[i]), scopes);
      CapDiffer(Queried(rows, partitions[i], AfterOf(parts, partitions[i]), scopes), PageSize(limit));
    }
    forall i, r | 0 <= i < |pages| && r in pages[i] ensures r in rows && r.partition == partitions[i] {
      CapMember(Queried(rows, partitions[i], AfterOf(parts, partitions[i]), scopes), PageSize(limit), r);
      ReadsNormal(listed, parts, i);
      QueriedMembers(rows, parts, scopes, partitions[i]);
    }
    ReadsDistinct(listed, parts);
    ConcatDiffer(rows, pages, partitions);
    DifferOrdered(Concat(pages));
  }

  lemma CapDiffer(rows: seq<Row>, limit: nat)
    requires V.Differ(rows)
    ensures V.Differ(Cap(rows, limit))
  {
  }

  lemma ReadsDistinct(listed: seq<Partition>, parts: seq<PartitionCursor>)
    ensures Distinct(ToRead(listed, parts))
  {
    hide Once, SortPartitions;
    OnceSound(listed + CursorReplay.Named(parts));
    SortPartitionsSound(Once(listed + CursorReplay.Named(parts)));
  }

  /** For any table: a partition cursor returns the first `limit` matching rows of the
      whole remaining log if and only if each of those rows is in the page of its own
      partition, which is cut by offset. */
  lemma CursorBatchExactly(rows: seq<Row>, listed: seq<Partition>, cursor: Cursor, scopes: Option<seq<string>>, limit: int)
    requires V.Differ(rows) && RowsNormal(rows) && Covers(listed, rows) && !ByScalar(cursor)
    ensures
      var rest, n := SortRows(Remaining(rows, cursor.partitions, scopes)), PageSize(limit);
      CursorBatch(rows, listed, cursor, scopes, limit) == Cap(rest, n)
      <==> forall k :: 0 <= k < |rest| && k < n ==>
          rest[k] in PageOf(rows, cursor.partitions, scopes, rest[k].partition, limit)
  {
    hide SortRows, Remaining, Merged, PageOf, CursorBatch, V.Differ, RowsNormal, Covers, Ordered, Due;
    var parts, n := cursor.partitions, PageSize(limit);
    var rest, merged := SortRows(Remaining(rows, parts, scopes)), Merged(rows, listed, parts, scopes, limit);
    RemainingMembers(rows, parts, scopes);
    SortMembers(Remaining(rows, parts, scopes));
    DifferOrdered(Remaining(rows, parts, scopes));
    MergedOrdered(rows, listed, parts, scopes, limit);
    BatchOfMerged(rows, listed, cursor, scopes, limit);
    forall r | r in merged ensures r in rest {
      MergedIsDue(rows, listed, parts, scopes, limit, r);
    }
    forall k | 0 <= k < |rest| ensures rest[k] in merged <==>
        rest[k] in PageOf(rows, parts, scopes, rest[k].partition, limit) {
      assert rest[k] in rest;
      MergedMembers(rows, listed, parts, scopes, limit, rest[k]);
    }
    if forall k :: 0 <= k < |rest| && k < n ==> rest[k] in merged {
      SamePage(rest, merged, n);
    }
    if Cap(merged, n) == Cap(rest, n) {
      forall k | 0 <= k < |rest| && k < n ensures rest[k] in merged {
        assert rest[k] == Cap(merged, n)[k];
        assert Cap(merged, n)[k] == merged[k];
      }
    }
  }

  lemma MergedIsDue(rows: seq<Row>, listed: seq<Partition>, parts: seq<PartitionCursor>, scopes: Option<seq<string>>,
                    limit: int, row: Row)
    requires RowsNormal(rows) && Covers(listed, rows) && row in Merged(rows, listed, parts, scopes, limit)
    ensures row in rows && Due(parts, scopes, row)
  {
    hide AfterOf, Queried, Merged, Due, ToRead, RowsNormal, Covers;
    MergedFromTable(rows, listed, parts, scopes, limit, row);
    MergedMembers(rows, listed, parts, scopes, limit, row);
    ReadsAll(rows, listed, parts, row);
    QueriedMembers(rows, parts, scopes, row.partition);
    CapMember(Queried(rows, row.partition, AfterOf(parts, row.partition), scopes), PageSize(limit), row);
  }

  /** The loss at an input: offset 1 has sequence 9 and offset 2 has sequence 3.  A page
      of one delivers the first, and the sequence observed with it passes the second. */
  lemma ObservedCursorLoses(a: Partition, e: EventRecord, f: EventRecord)
    requires a.Normal()
    ensures
      var rows := [Row(3, a, 2, e), Row(9, a, 1, f)];
      var cursor := Cursor(0, [PartitionCursor(a, 0)]);
      var batch := CursorBatch(rows, [a], cursor, None, 1);
      && batch == [Row(9, a, 1, f)] && Due(cursor.partitions, None, Row(3, a, 2, e))
      && Row(3, a, 2, e) !in Pending(rows, ObserveAll(cursor, batch), None)
  {
    hide CursorBatch, Pending, ObserveAll, PageOf, Merged;
    var early, late := Row(3, a, 2, e), Row(9, a, 1, f);
    var rows, cursor := [early, late], Cursor(0, [PartitionCursor(a, 0)]);
    var batch := CursorBatch(rows, [a], cursor, None, 1);
    OnePage(a, early, late);
    MergedMembers(rows, [a], cursor.partitions, None, 1, early);
    BatchOfMerged(rows, [a], cursor, None, 1);
    BatchNotEmpty(rows, [a], cursor, None, 1, early);
    assert batch[0] in Merged(rows, [a], cursor.partitions, None, 1);
    MergedFromTable(rows, [a], cursor.partitions, None, 1, batch[0]);
    ObservedLosesExactly(rows, [a], cursor, None, 1, early);
  }

  lemma OnePage(a: Partition, early: Row, late: Row)
    requires a.Normal() && early.partition == a && late.partition == a && early.offset == 2 && late.offset == 1
    ensures PageOf([early, late], [PartitionCursor(a, 0)], None, a, 1) == [late]
    ensures Due([PartitionCursor(a, 0)], None, early)
  {
    hide Matching;
    var parts := [PartitionCursor(a, 0)];
    assert parts[..0] == [];
    assert AfterOf(parts, a) == 0;
    assert [early, late][..1] == [early] && [early][..0] == [];
    assert InPartition([early], a, 0) == [early];
    assert InPartition([early, late], a, 0) == [early, late];
    assert ByOffset([early]) == [early];
    assert Slotted([early], late) == [late, early];
    assert ByOffset([early, late]) == [late, early];
    MatchingAll([late, early]);
  }
}
