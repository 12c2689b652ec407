/** The processor behind one derived view: fetch a batch after the watermark, apply
    it and move the watermark in one transaction. */
module DerivedView {
  import opened LogModel
  import opened BrokerEventLog
  import opened SqlEventLog
  import V = SqlViews

  predicate Overlap(a: seq<string>, b: seq<string>) {
    exists x :: x in a && x in b
  }

  predicate Wanted(scopes: Option<seq<string>>, row: Row) {
    scopes.None? || Overlap(row.event.scopes, scopes.value)
  }

  function Matching(rows: seq<Row>, scopes: Option<seq<string>>): seq<Row> {
    if rows == [] then []
    else
      var last := rows[|rows| - 1];
      Matching(rows[..|rows| - 1], scopes) + if Wanted(scopes, last) then [last] else []
  }

  lemma {:induction false} MatchingPrefix(rows: seq<Row>, scopes: Option<seq<string>>, k: nat)
    requires k <= |rows|
    ensures Matching(rows[..k], scopes) <= Matching(rows, scopes)
  {
    if k < |rows| {
      var init := rows[..|rows| - 1];
      MatchingPrefix(init, scopes, k);
      assert init[..k] == rows[..k];
    } else {
      assert rows[..k] == rows;
    }
  }

  lemma {:induction false} MatchingAll(rows: seq<Row>)
    ensures Matching(rows, None) == rows
  {
    if rows != [] {
      MatchingAll(rows[..|rows| - 1]);
    }
  }

  lemma {:induction false} MatchingMembers(rows: seq<Row>, scopes: Option<seq<string>>)
    ensures forall r :: r in Matching(rows, scopes) <==> r in rows && Wanted(scopes, r)
  {
    hide Wanted;
    if rows != [] {
      MatchingMembers(rows[..|rows| - 1], scopes);
      assert rows == rows[..|rows| - 1] + [rows[|rows| - 1]];
    }
  }

  /** Asked for everything, or one of the event's scopes is one of those asked for. */
  ghost predicate InScope(scopes: Option<seq<string>>, e: EventRecord) {
    scopes.Some? ==> exists i, j :: 0 <= i < |e.scopes| && 0 <= j < |scopes.value| && e.scopes[i] == scopes.value[j]
  }

  lemma WantedMeans(scopes: Option<seq<string>>, row: Row)
    ensures Wanted(scopes, row) <==> InScope(scopes, row.event)
  {
    if scopes.Some? && Overlap(row.event.scopes, scopes.value) {
      var x :| x in row.event.scopes && x in scopes.value;
      var i :| 0 <= i < |row.event.scopes| && row.event.scopes[i] == x;
      var j :| 0 <= j < |scopes.value| && scopes.value[j] == x;
      assert row.event.scopes[i] == scopes.value[j];
    }
    if scopes.Some? && InScope(scopes, row.event) {
      var i, j :| 0 <= i < |row.event.scopes| && 0 <= j < |scopes.value| && row.event.scopes[i] == scopes.value[j];
      assert row.event.scopes[i] in row.event.scopes && row.event.scopes[i] in scopes.value;
    }
  }

  /** What a scan returns: rows in scope and no others, all of them unless the limit
      stopped it. */
  ghost predicate Scanned(rows: seq<Row>, scopes: Option<seq<string>>, limit: int, out: seq<Row>) {
    && (forall row :: row in out ==> row in rows && InScope(scopes, row.event))
    && (limit > 0 ==> |out| <= limit)
    && (limit <= 0 || |out| < limit ==> forall row :: row in rows && InScope(scopes, row.event) ==> row in out)
  }

  lemma MatchingScans(rows: seq<Row>, scopes: Option<seq<string>>, limit: int)
    ensures Scanned(rows, scopes, limit, Limit(Matching(rows, scopes), limit))
  {
    hide Matching, Wanted, InScope;
    MatchingMembers(rows, scopes);
    forall row ensures Wanted(scopes, row) <==> InScope(scopes, row.event) {
      WantedMeans(scopes, row);
    }
  }

  /** Read rows in order, keep those in scope, stop at the limit. */
  method ScanRows(rows: seq<Row>, scopes: Option<seq<string>>, limit: int) returns (out: seq<Row>)
    ensures out == Limit(Matching(rows, scopes), limit)
    ensures Scanned(rows, scopes, limit, out)
  {
    hide Scanned;
    MatchingScans(rows, scopes, limit);
    out := [];
    var i := 0;
    while i < |rows|
      invariant 0 <= i <= |rows| && out == Matching(rows[..i], scopes) && (limit > 0 ==> |out| < limit)
    {
      assert rows[..i + 1][..i] == rows[..i];
      MatchingPrefix(rows, scopes, i + 1);
      var row := rows[i];
      i := i + 1;
      if scopes.Some? && !Overlap(row.event.scopes, scopes.value) {
        continue;
      }
      out := out + [row];
      if limit > 0 && |out| >= limit {
        return;
      }
    }
    assert rows[..i] == rows;
  }

  class Processor<S(!new)> {
    const apply: (S, Row) -> S
    var state: S
    var watermark: Option<nat>
    ghost var seen: seq<Row>

    constructor (apply: (S, Row) -> S, init: S)
      ensures this.apply == apply && state == init && watermark == None && seen == []
    {
      this.apply, state, watermark, seen := apply, init, None, [];
    }

    function From(): nat
      reads this
    {
      if watermark.None? then 0 else watermark.value
    }

    ghost function Shown(): View<S>
      reads this
    {
      View(state, seen, From(), None)
    }

    /** One pass over a snapshot of the table.  `fails` says which event cannot be
        applied, `recordFails` and `commitFails` which database calls fail. */
    method ProcessOnce(table: seq<Row>, batchSize: int, fails: Row -> bool, recordFails: bool, commitFails: bool)
      returns (events: nat, error: Option<Failure>)
      modifies this
      ensures error.Some? ==> Shown() == old(Shown())
      ensures error.None? ==>
                && events == |BatchAfter(table, old(From()), batchSize)|
                && Shown() == Applied(apply, old(Shown()).(batch := Some(BatchAfter(table, old(From()), batchSize))))
    {
      hide Sorted, RowsAfter, Matching, Head, Fold;
      var from: int := From();
      var limit := if batchSize <= 0 then DEFAULT_BATCH else batchSize;
      var sorted := Sorted(RowsAfter(table, from));
      var batch := ScanRows(sorted, None, limit);
      MatchingAll(sorted);
      var working, appliedSeq := state, from;
      events := 0;
      ghost var init := state;
      FoldNone(apply, init, batch);
      if batch != [] {
        HeadStep(batch, 0);
      }
      while events < |batch|
        invariant 0 <= events <= |batch| && state == init && watermark == old(watermark) && seen == old(seen)
        invariant working == Fold(apply, init, batch[..events])
        invariant appliedSeq == if Head(batch[..events]) > from then Head(batch[..events]) else from
      {
        FoldStep(apply, init, batch, events);
        HeadStep(batch, events);
        var row := batch[events];
        if fails(row) {
          return events, Some(ApplyFailure);
        }
        working := apply(working, row);
        if row.scalar > appliedSeq {
          appliedSeq := row.scalar;
        }
        events := events + 1;
      }
      assert batch[..events] == batch;
      if recordFails || commitFails {
        return events, Some(CommitFailure);
      }
      state, watermark, seen, error := working, Some(appliedSeq), seen + batch, None;
    }
  }

  lemma HeadStep(batch: seq<Row>, k: nat)
    requires k < |batch|
    ensures Head(batch[..0]) == 0
    ensures Head(batch[..k + 1]) == if batch[k].scalar > Head(batch[..k]) then batch[k].scalar else Head(batch[..k])
  {
    assert batch[..k + 1][..k] == batch[..k];
  }

  /** A pass keeps the view equal to the fold of everything at or below its
      watermark, and moves it while rows remain. */
  lemma PassKeepsFold<S(!new)>(apply: (S, Row) -> S, init: S, table: seq<Row>, next: int, view: View<S>, batchSize: int)
    requires V.Differ(table) && Within(table, next) && V.Safe(table, view) && view.state == Fold(apply, init, view.seen)
    ensures
      var view' := Applied(apply, view.(batch := Some(BatchAfter(table, view.watermark, batchSize))));
      && V.Safe(table, view') && view'.state == Fold(apply, init, view'.seen)
      && (view.watermark < Head(table) ==> view.watermark < view'.watermark)
  {
    hide V.Complete, V.BatchReady, V.Differ, BatchAfter, Fold, Head;
    var batch := BatchAfter(table, view.watermark, batchSize);
    V.FetchKeeps(table, next, view, batchSize);
    V.ApplyKeeps(apply, table, view.(batch := Some(batch)));
    FoldConcat(apply, init, view.seen, batch);
    if view.watermark < Head(table) {
      BatchMoves(table, view.watermark, batchSize);
    }
  }

  lemma BatchMoves(table: seq<Row>, mark: int, batchSize: int)
    requires V.Differ(table) && 0 <= mark < Head(table)
    ensures mark < Head(BatchAfter(table, mark, batchSize))
  {
    hide RowsAfter, Sorted, Head, V.Differ;
    var i :| 0 <= i < |table| && table[i].scalar == Head(table);
    V.AfterHolds(table, mark);
    V.SortedHolds(RowsAfter(table, mark));
    assert table[i] in Sorted(RowsAfter(table, mark));
    var batch := BatchAfter(table, mark, batchSize);
    assert batch[0] == Sorted(RowsAfter(table, mark))[0];
    assert batch[0] in Sorted(RowsAfter(table, mark));
  }
}
