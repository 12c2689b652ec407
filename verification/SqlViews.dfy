/** Derived views over a table that gated appends and the ungated indexer both write:
    exactly which commits a view survives. */
module SqlViews {
  import opened LogModel
  import opened BrokerEventLog
  import opened SqlEventLog

  // ---- Every scalar is taken once ---------------------------------------------------------

  ghost predicate Apart(a: seq<Row>, b: seq<Row>) {
    forall i, k :: 0 <= i < |a| && 0 <= k < |b| ==> a[i].scalar != b[k].scalar
  }

  ghost predicate Differ(rows: seq<Row>) {
    forall i, j :: 0 <= i < j < |rows| ==> rows[i].scalar != rows[j].scalar
  }

  ghost predicate Unique<S>(s: Database<S>) {
    && s.next >= 1 && Differ(s.rows) && Within(s.rows, s.next)
    && (forall t :: t in s.open ==> Differ(s.open[t].rows) && Within(s.open[t].rows, s.next) && Apart(s.open[t].rows, s.rows))
    && (forall t, u :: t in s.open && u in s.open && t != u ==> Apart(s.open[t].rows, s.open[u].rows))
  }

  lemma DifferSnoc(rows: seq<Row>, row: Row, next: int)
    requires Differ(rows) && Within(rows, next) && row.scalar == next >= 1
    ensures Differ(rows + [row]) && Within(rows + [row], next + 1)
  {
  }

  lemma ApartSnoc(rows: seq<Row>, others: seq<Row>, row: Row, next: int)
    requires Apart(rows, others) && Within(others, next) && row.scalar == next
    ensures Apart(rows + [row], others) && Apart(others, rows + [row])
  {
  }

  lemma UniqueInsert<S>(s: Database<S>, s': Database<S>, t: TxId, tx: Tx, row: Row)
    requires Unique(s) && t in s.open && row.scalar == s.next && tx.rows == s.open[t].rows + [row]
    requires s'.rows == s.rows && s'.next == s.next + 1 && s'.open == s.open[t := tx]
    ensures Unique(s')
  {
    hide Differ, Apart;
    DifferSnoc(s.open[t].rows, row, s.next);
    ApartSnoc(s.open[t].rows, s.rows, row, s.next);
    forall u | u in s.open && u != t ensures Apart(tx.rows, s.open[u].rows) && Apart(s.open[u].rows, tx.rows) {
      ApartSnoc(s.open[t].rows, s.open[u].rows, row, s.next);
    }
  }

  lemma UniqueCommit<S>(apply: (S, Row) -> S, s: Database<S>, s': Database<S>, t: TxId)
    requires Unique(s) && Take(apply, s, Commit(t)) == Some(s')
    ensures Unique(s')
  {
    var tx := s.open[t];
    assert Apart(tx.rows, s.rows) && Differ(tx.rows) && Within(tx.rows, s.next);
    forall u | u in s'.open ensures Apart(s'.open[u].rows, s'.rows) {
      assert Apart(s.open[u].rows, s.rows) && Apart(s.open[u].rows, tx.rows);
    }
  }

  lemma UniqueStep<S>(apply: (S, Row) -> S, s: Database<S>, s': Database<S>, step: Step)
    requires Unique(s) && Take(apply, s, step) == Some(s')
    ensures Unique(s')
  {
    hide Unique, BatchAfter, Applied, Locked, Local;
    match step {
      case Insert(t) => UniqueInsert(s, s', t, s'.open[t], s'.open[t].rows[|s.open[t].rows|]);
      case Index(t, _, _, _) => UniqueInsert(s, s', t, s'.open[t], s'.open[t].rows[|s.open[t].rows|]);
      case Commit(t) => UniqueCommit(apply, s, s', t);
      case _ => UniqueSame(s, s');
    }
  }

  lemma UniqueSame<S>(s: Database<S>, s': Database<S>)
    requires Unique(s) && s'.rows == s.rows && s'.next >= s.next
    requires forall t :: t in s'.open ==> s'.open[t].rows == [] || (t in s.open && s'.open[t].rows == s.open[t].rows)
    ensures Unique(s')
  {
  }

  // ---- What a view holds --------------------------------------------------------------------

  /** The view has applied exactly the rows at or below its watermark, in order. */
  ghost predicate Complete<S>(rows: seq<Row>, view: View<S>) {
    && Ascending(view.seen)
    && forall row :: row in view.seen <==> row in rows && row.scalar <= view.watermark
  }

  /** What was fetched is every row between the watermark and its own head. */
  ghost predicate BatchReady(rows: seq<Row>, mark: int, batch: seq<Row>) {
    && Ascending(batch) && (forall row :: row in batch ==> row in rows && row.scalar > mark)
    && forall row :: row in rows && mark < row.scalar <= Head(batch) ==> row in batch
  }

  ghost predicate Safe<S>(rows: seq<Row>, view: View<S>) {
    && Complete(rows, view) && 0 <= view.watermark <= Head(rows)
    && (view.batch.Some? ==> BatchReady(rows, view.watermark, view.batch.value))
  }

  ghost predicate AllSafe<S>(s: Database<S>) {
    forall v :: v in s.views ==> Safe(s.rows, s.views[v])
  }

  /** How far the view has come, counting the batch in its hands. */
  function Reach<S>(view: View<S>): int {
    if view.batch.None? then view.watermark else Greater(Head(view.batch.value), view.watermark)
  }

  /** The rows of this transaction lie past every view. */
  ghost predicate Clear<S>(s: Database<S>, t: TxId)
    requires t in s.open
  {
    forall v, i :: v in s.views && 0 <= i < |s.open[t].rows| ==> s.open[t].rows[i].scalar > Reach(s.views[v])
  }

  // ---- ORDER BY seq ---------------------------------------------------------------------------

  lemma {:induction false} PlacedMembers(rows: seq<Row>, row: Row)
    ensures forall r :: r in Placed(rows, row) <==> r in rows || r == row
  {
    if rows != [] && row.scalar < rows[|rows| - 1].scalar {
      PlacedMembers(rows[..|rows| - 1], row);
      assert rows == rows[..|rows| - 1] + [rows[|rows| - 1]];
    }
  }

  lemma {:induction false} PlacedAscends(rows: seq<Row>, row: Row)
    requires Ascending(rows) && forall r :: r in rows ==> r.scalar != row.scalar
    ensures Ascending(Placed(rows, row))
  {
    if rows != [] && row.scalar < rows[|rows| - 1].scalar {
      var init, last := rows[..|rows| - 1], rows[|rows| - 1];
      PlacedAscends(init, row);
      PlacedMembers(init, row);
      forall r | r in Placed(init, row) ensures r.scalar < last.scalar {
        if r in init {
          var i :| 0 <= i < |init| && init[i] == r;
        }
      }
    }
  }

  lemma {:induction false} SortedHolds(rows: seq<Row>)
    requires Differ(rows)
    ensures Ascending(Sorted(rows)) && forall r :: r in Sorted(rows) <==> r in rows
  {
    if rows != [] {
      var n := |rows| - 1;
      SortedHolds(rows[..n]);
      PlacedMembers(Sorted(rows[..n]), rows[n]);
      assert rows == rows[..n] + [rows[n]];
      forall r | r in Sorted(rows[..n]) ensures r.scalar != rows[n].scalar {
        var i :| 0 <= i < n && rows[..n][i] == r;
      }
      PlacedAscends(Sorted(rows[..n]), rows[n]);
    }
  }

  lemma {:induction false} AfterHolds(rows: seq<Row>, mark: int)
    requires Differ(rows)
    ensures Differ(RowsAfter(rows, mark)) && forall r :: r in RowsAfter(rows, mark) <==> r in rows && r.scalar > mark
  {
    if rows != [] {
      var n := |rows| - 1;
      AfterHolds(rows[..n], mark);
      assert rows == rows[..n] + [rows[n]];
      forall r | r in RowsAfter(rows[..n], mark) ensures r.scalar != rows[n].scalar {
        var i :| 0 <= i < n && rows[..n][i] == r;
      }
    }
  }

  lemma HeadOf(rows: seq<Row>, k: nat)
    requires Ascending(rows) && k < |rows| && rows[|rows| - 1].scalar > 0
    ensures Head(rows) == rows[|rows| - 1].scalar >= rows[k].scalar
  {
  }

  /** A fetch is ready whatever order the rows were committed in. */
  lemma FetchReady(rows: seq<Row>, next: int, mark: int, limit: int)
    requires Differ(rows) && Within(rows, next) && mark >= 0
    ensures BatchReady(rows, mark, BatchAfter(rows, mark, limit))
  {
    hide Sorted, RowsAfter, Head, Differ;
    AfterHolds(rows, mark);
    SortedHolds(RowsAfter(rows, mark));
    PrefixReady(rows, mark, Sorted(RowsAfter(rows, mark)), BatchAfter(rows, mark, limit));
  }

  lemma PrefixReady(rows: seq<Row>, mark: int, all: seq<Row>, batch: seq<Row>)
    requires Ascending(all) && batch <= all && mark >= 0 && (all != [] ==> batch != [])
    requires forall r :: r in all <==> r in rows && r.scalar > mark
    ensures BatchReady(rows, mark, batch)
  {
    hide Head;
    assert forall i :: 0 <= i < |batch| ==> batch[i] == all[i];
    forall row | row in rows && mark < row.scalar <= Head(batch) ensures row in batch {
      assert row in all;
      var k :| 0 <= k < |all| && all[k] == row;
      assert all[|batch| - 1] in all;
      HeadOf(batch, 0);
      if k < |batch| {
        assert batch[k] == row;
      }
    }
  }

  lemma FetchKeeps<S>(rows: seq<Row>, next: int, view: View<S>, limit: int)
    requires Differ(rows) && Within(rows, next) && Safe(rows, view)
    ensures Safe(rows, view.(batch := Some(BatchAfter(rows, view.watermark, limit))))
  {
    hide Differ, Head, BatchReady, BatchAfter;
    FetchReady(rows, next, view.watermark, limit);
  }

  lemma ApplyKeeps<S>(apply: (S, Row) -> S, rows: seq<Row>, view: View<S>)
    requires Safe(rows, view) && view.batch.Some?
    ensures Safe(rows, Applied(apply, view))
  {
    hide Head, Fold;
    var batch, mark := view.batch.value, view.watermark;
    var seen := view.seen + batch;
    forall i, j | 0 <= i < j < |seen| ensures seen[i].scalar < seen[j].scalar {
      if i < |view.seen| <= j {
        assert seen[i] in view.seen && seen[j] in batch;
      }
    }
    var mark' := Greater(Head(batch), mark);
    forall row ensures row in seen <==> row in rows && row.scalar <= mark' {
      assert row in seen <==> row in view.seen || row in batch;
    }
    if Head(batch) > 0 {
      var i :| 0 <= i < |batch| && batch[i].scalar == Head(batch);
      assert batch[i] in rows;
    }
  }

  // ---- Commits, exactly ------------------------------------------------------------------------

  lemma CommitOneView<S>(rows: seq<Row>, more: seq<Row>, view: View<S>)
    requires Safe(rows, view) && Apart(more, rows)
    ensures Safe(rows + more, view) <==> forall i :: 0 <= i < |more| ==> more[i].scalar > Reach(view)
  {
    hide Head;
    var all := rows + more;
    assert Head(rows) <= Head(all) by {
      if Head(rows) > 0 {
        var k :| 0 <= k < |rows| && rows[k].scalar == Head(rows);
        assert all[k] == rows[k];
      }
    }
    forall i | 0 <= i < |more| ensures more[i] in all && more[i] !in rows {
      assert all[|rows| + i] == more[i];
    }
    forall row ensures row in all <==> row in rows || row in more {
    }
    if forall i :: 0 <= i < |more| ==> more[i].scalar > Reach(view) {
      assert Complete(all, view);
    } else {
      var i :| 0 <= i < |more| && more[i].scalar <= Reach(view);
      assert more[i] in all && more[i] !in view.seen;
    }
  }

  /** A commit leaves every view on course if and only if its rows lie past all of
      them. */
  lemma CommitExactly<S>(apply: (S, Row) -> S, s: Database<S>, s': Database<S>, t: TxId)
    requires Unique(s) && AllSafe(s) && Take(apply, s, Commit(t)) == Some(s')
    ensures AllSafe(s') <==> Clear(s, t)
  {
    hide Safe, Reach, Differ;
    forall v | v in s.views
      ensures Safe(s'.rows, s.views[v]) <==> forall i :: 0 <= i < |s.open[t].rows| ==>
                s.open[t].rows[i].scalar > Reach(s.views[v])
    {
      CommitOneView(s.rows, s.open[t].rows, s.views[v]);
    }
  }

  lemma SafeStep<S>(apply: (S, Row) -> S, s: Database<S>, s': Database<S>, step: Step)
    requires Unique(s) && AllSafe(s) && Take(apply, s, step) == Some(s')
    requires step.Commit? ==> Clear(s, step.t)
    ensures AllSafe(s')
  {
    hide Complete, BatchReady, BatchAfter, Applied, Locked, Differ, Apart;
    match step {
      case Commit(t) => CommitExactly(apply, s, s', t);
      case Fetch(v, limit) => FetchKeeps(s.rows, s.next, s.views[v], limit);
      case Apply(v) => ApplyKeeps(apply, s.rows, s.views[v]);
      case Drop(v) => DropKeeps(s.rows, s.views[v]);
      case _ =>
    }
  }

  lemma DropKeeps<S>(rows: seq<Row>, view: View<S>)
    requires Safe(rows, view)
    ensures Safe(rows, view.(batch := None))
  {
  }

  ghost predicate Folded<S>(apply: (S, Row) -> S, init: S, s: Database<S>) {
    forall v :: v in s.views ==> s.views[v].state == Fold(apply, init, s.views[v].seen)
  }

  lemma FoldedStep<S>(apply: (S, Row) -> S, init: S, s: Database<S>, s': Database<S>, step: Step)
    requires Folded(apply, init, s) && Take(apply, s, step) == Some(s')
    ensures Folded(apply, init, s')
  {
    hide Fold, BatchAfter, Locked;
    if step.Apply? {
      FoldConcat(apply, init, s.views[step.v].seen, s.views[step.v].batch.value);
    }
  }

  ghost predicate AllClear<S>(states: seq<Database<S>>, steps: seq<Step>, n: nat) {
    && n <= |steps| && n <= |states|
    && forall j :: 0 <= j < n && steps[j].Commit? ==> steps[j].t in states[j].open && Clear(states[j], steps[j].t)
  }

  lemma {:induction false} SafeRun<S(!new)>(apply: (S, Row) -> S, init: S, states: seq<Database<S>>, steps: seq<Step>, i: nat)
    requires Run(apply, init, states, steps) && i < |states| && AllClear(states, steps, i)
    ensures Unique(states[i]) && AllSafe(states[i]) && Folded(apply, init, states[i])
  {
    hide Take, Unique, Clear, AllSafe, Folded;
    if i == 0 {
      StartSafe(apply, init, states[0]);
    } else {
      SafeRun(apply, init, states, steps, i - 1);
      UniqueStep(apply, states[i - 1], states[i], steps[i - 1]);
      SafeStep(apply, states[i - 1], states[i], steps[i - 1]);
      FoldedStep(apply, init, states[i - 1], states[i], steps[i - 1]);
    }
  }

  lemma StartSafe<S(!new)>(apply: (S, Row) -> S, init: S, s: Database<S>)
    requires exists views :: s == Start(init, views)
    ensures Unique(s) && AllSafe(s) && Folded(apply, init, s)
  {
  }

  /** Over every run of gated appends and indexers whose commits each lie past all
      views, a view holds in every state exactly the fold, in sequence order, of all
      committed rows at or below its watermark. */
  lemma ClearCommitsMissNothing<S(!new)>(apply: (S, Row) -> S, init: S, states: seq<Database<S>>, steps: seq<Step>,
                                         i: nat, v: ViewId)
    requires Run(apply, init, states, steps) && i < |states| && AllClear(states, steps, i) && v in states[i].views
    ensures
      var s, view := states[i], states[i].views[v];
      && view.state == Fold(apply, init, view.seen) && Ascending(view.seen)
      && (forall row :: row in view.seen <==> row in s.rows && row.scalar <= view.watermark)
  {
    SafeRun(apply, init, states, steps, i);
  }

  // ---- Gated appends alone ------------------------------------------------------------------------

  /** Prevention: a commit past the head of the table is past every view. */
  lemma PastHeadIsClear<S>(s: Database<S>, t: TxId)
    requires AllSafe(s) && t in s.open && forall i :: 0 <= i < |s.open[t].rows| ==>
              s.open[t].rows[i].scalar > Head(s.rows)
    ensures Clear(s, t)
  {
    hide Head, Complete;
    forall v | v in s.views ensures Reach(s.views[v]) <= Head(s.rows) {
      assert Safe(s.rows, s.views[v]);
      if s.views[v].batch.Some? && Head(s.views[v].batch.value) > 0 {
        var b := s.views[v].batch.value;
        var k :| 0 <= k < |b| && b[k].scalar == Head(b);
        assert b[k] in s.rows;
      }
    }
  }

  ghost predicate OnlyGated<S>(s: Database<S>) {
    s.rows == s.native && s.indexed == {} && forall t :: t in s.open ==> s.open[t].gated
  }

  lemma GatedCommitIsClear<S>(s: Database<S>, t: TxId)
    requires GateInv(s) && OnlyGated(s) && AllSafe(s) && t in s.open
    ensures Clear(s, t)
  {
    hide Counted, Safe;
    var tx := s.open[t];
    assert TxSound(s, t, tx);
    if s.gate == Some(t) {
      PastHead(s.native, s.native + tx.rows, s.next);
      assert forall i :: 0 <= i < |tx.rows| ==> tx.rows[i] == (s.native + tx.rows)[|s.native| + i];
    }
    PastHeadIsClear(s, t);
  }

  lemma {:induction false} GatedRun<S(!new)>(apply: (S, Row) -> S, init: S, states: seq<Database<S>>, steps: seq<Step>, i: nat)
    requires Run(apply, init, states, steps) && i < |states|
    requires forall j :: 0 <= j < |steps| && steps[j].Begin? ==> steps[j].gated
    ensures OnlyGated(states[i]) && AllClear(states, steps, i)
  {
    hide Clear, Take, OnlyGated, GateInv, AllSafe, Unique, Folded;
    if i == 0 {
      StartGated(init, states[0]);
    } else {
      GatedRun(apply, init, states, steps, i - 1);
      GateRun(apply, init, states, steps, i - 1);
      SafeRun(apply, init, states, steps, i - 1);
      if steps[i - 1].Commit? {
        CommitIsOpen(apply, states[i - 1], states[i], steps[i - 1].t);
        GatedCommitIsClear(states[i - 1], steps[i - 1].t);
      }
      OnlyGatedStep(apply, states[i - 1], states[i], steps[i - 1]);
    }
  }

  lemma StartGated<S(!new)>(init: S, s: Database<S>)
    requires exists views :: s == Start(init, views)
    ensures OnlyGated(s)
  {
  }

  lemma CommitIsOpen<S>(apply: (S, Row) -> S, s: Database<S>, s': Database<S>, t: TxId)
    requires Take(apply, s, Commit(t)) == Some(s')
    ensures t in s.open
  {
  }

  lemma OnlyGatedStep<S>(apply: (S, Row) -> S, s: Database<S>, s': Database<S>, step: Step)
    requires OnlyGated(s) && Take(apply, s, step) == Some(s') && (step.Begin? ==> step.gated)
    ensures OnlyGated(s')
  {
    hide BatchAfter, Applied, Locked;
  }

  /** When every writer takes the gate, no view misses or repeats anything, under any
      interleaving of commits, aborts, batches and failures. */
  lemma ViewsMissNothing<S(!new)>(apply: (S, Row) -> S, init: S, states: seq<Database<S>>, steps: seq<Step>, i: nat, v: ViewId)
    requires Run(apply, init, states, steps) && i < |states| && v in states[i].views
    requires forall j :: 0 <= j < |steps| && steps[j].Begin? ==> steps[j].gated
    ensures
      var s, view := states[i], states[i].views[v];
      && view.state == Fold(apply, init, view.seen) && Ascending(view.seen)
      && (forall row :: row in view.seen <==> row in s.rows && row.scalar <= view.watermark)
  {
    GatedRun(apply, init, states, steps, i);
    ClearCommitsMissNothing(apply, init, states, steps, i, v);
  }

  // ---- What an unclear commit costs -------------------------------------------------------------------

  /** The view has passed this committed row without applying it. */
  ghost predicate Missed<S>(s: Database<S>, v: ViewId, row: Row) {
    && v in s.views && row in s.rows && row.scalar <= s.views[v].watermark && row !in s.views[v].seen
    && (s.views[v].batch.Some? ==> row !in s.views[v].batch.value)
  }

  lemma {:induction false} NotAfter(rows: seq<Row>, mark: int, row: Row)
    requires row.scalar <= mark
    ensures row !in RowsAfter(rows, mark)
  {
    if rows != [] {
      NotAfter(rows[..|rows| - 1], mark, row);
    }
  }

  lemma {:induction false} NotSorted(rows: seq<Row>, row: Row)
    requires row !in rows
    ensures row !in Sorted(rows)
  {
    if rows != [] {
      NotSorted(rows[..|rows| - 1], row);
      PlacedMembers(Sorted(rows[..|rows| - 1]), rows[|rows| - 1]);
    }
  }

  /** A missed row stays missed. */
  lemma MissedStays<S>(apply: (S, Row) -> S, s: Database<S>, s': Database<S>, step: Step, v: ViewId, row: Row)
    requires Missed(s, v, row) && Take(apply, s, step) == Some(s')
    ensures Missed(s', v, row)
  {
    hide Head, Fold, Sorted, RowsAfter, Locked;
    if step.Fetch? && step.v == v {
      NotAfter(s.rows, s.views[v].watermark, row);
      NotSorted(RowsAfter(s.rows, s.views[v].watermark), row);
    }
  }

  function TakeAll<S>(apply: (S, Row) -> S, s: Database<S>, steps: seq<Step>): Option<Database<S>>
    decreases |steps|
  {
    if steps == [] then Some(s)
    else
      var s' := Take(apply, s, steps[0]);
      if s'.None? then None else TakeAll(apply, s'.value, steps[1..])
  }

  lemma {:induction false} MissedForever<S>(apply: (S, Row) -> S, s: Database<S>, steps: seq<Step>, v: ViewId, row: Row)
    requires Missed(s, v, row) && TakeAll(apply, s, steps).Some?
    ensures Missed(TakeAll(apply, s, steps).value, v, row)
    decreases |steps|
  {
    hide Take, Missed;
    if steps != [] {
      MissedStays(apply, s, Take(apply, s, steps[0]).value, steps[0], v, row);
      MissedForever(apply, Take(apply, s, steps[0]).value, steps[1..], v, row);
    }
  }

  /** The condition is needed: after a commit that is not past all views, some view
      misses a row, at once or when it applies the batch in its hands, and then for
      good. */
  lemma UnclearCommitLoses<S>(apply: (S, Row) -> S, s: Database<S>, s': Database<S>, t: TxId)
    returns (v: ViewId, row: Row, s'': Database<S>)
    requires Unique(s) && AllSafe(s) && Take(apply, s, Commit(t)) == Some(s') && !Clear(s, t)
    ensures s'' == s' || Take(apply, s', Apply(v)) == Some(s'')
    ensures row in s.open[t].rows && Missed(s'', v, row)
  {
    hide Head, Fold, Locked, Differ, Complete, BatchReady;
    var i: int;
    v, i :| v in s.views && 0 <= i < |s.open[t].rows| && s.open[t].rows[i].scalar <= Reach(s.views[v]);
    row := s.open[t].rows[i];
    assert Safe(s.rows, s.views[v]) && Apart(s.open[t].rows, s.rows);
    NotInHand(s.rows, s.views[v], s.open[t].rows, i);
    assert s'.views == s.views && s'.rows == s.rows + s.open[t].rows && row in s'.rows;
    if row.scalar <= s.views[v].watermark {
      s'' := s';
    } else {
      s'' := s'.(views := s'.views[v := Applied(apply, s'.views[v])]);
      assert Take(apply, s', Apply(v)) == Some(s'');
    }
  }

  /** A row that comes later is neither applied nor in the batch at hand. */
  lemma NotInHand<S>(rows: seq<Row>, view: View<S>, more: seq<Row>, i: nat)
    requires Safe(rows, view) && Apart(more, rows) && i < |more|
    ensures more[i] !in view.seen && (view.batch.Some? ==> more[i] !in view.batch.value)
  {
    hide Head;
    assert more[i] !in rows;
  }

  /** Prevention is exact as well: if a row of the transaction lies at or below the
      head of the table, a view that is idle can catch up first and then miss it. */
  lemma OvertakenCommitLoses<S>(apply: (S, Row) -> S, s: Database<S>, t: TxId, v: ViewId, i: nat)
    returns (limit: int, s': Database<S>)
    requires Unique(s) && AllSafe(s) && v in s.views && s.views[v].batch.None?
    requires t in s.open && s.open[t].phase.Ready? && i < |s.open[t].rows| && s.open[t].rows[i].scalar <= Head(s.rows)
    ensures TakeAll(apply, s, [Fetch(v, limit), Apply(v), Commit(t)]) == Some(s')
    ensures Missed(s', v, s.open[t].rows[i])
  {
    hide TakeAll, Head, Fold, Differ, Sorted, RowsAfter, Complete, BatchReady;
    var row, view := s.open[t].rows[i], s.views[v];
    var all := Sorted(RowsAfter(s.rows, view.watermark));
    limit := |all| + 1;
    var s1 := s.(views := s.views[v := view.(batch := Some(all))]);
    assert Take(apply, s, Fetch(v, limit)) == Some(s1);
    var s2 := s1.(views := s1.views[v := Applied(apply, s1.views[v])]);
    assert Take(apply, s1, Apply(v)) == Some(s2);
    s' := Take(apply, s2, Commit(t)).value;
    TakePath(apply, [s, s1, s2, s'], [Fetch(v, limit), Apply(v), Commit(t)]);
    FetchKeeps(s.rows, s.next, view, limit);
    ApplyKeeps(apply, s.rows, s1.views[v]);
    CaughtUp(s.rows, view.watermark);
    NotSeen(s.rows, s2.views[v], s.open[t].rows, i);
  }

  lemma CaughtUp(rows: seq<Row>, mark: int)
    requires Differ(rows)
    ensures Head(rows) <= Greater(Head(Sorted(RowsAfter(rows, mark))), mark)
  {
    hide Head, Differ;
    AfterHolds(rows, mark);
    SortedHolds(RowsAfter(rows, mark));
    if Head(rows) > mark && Head(rows) != 0 {
      var k :| 0 <= k < |rows| && rows[k].scalar == Head(rows);
      assert rows[k] in Sorted(RowsAfter(rows, mark));
    }
  }

  lemma NotSeen<S>(rows: seq<Row>, view: View<S>, more: seq<Row>, i: nat)
    requires Complete(rows, view) && Apart(more, rows) && i < |more|
    ensures more[i] !in view.seen
  {
  }

  lemma TakePath<S>(apply: (S, Row) -> S, states: seq<Database<S>>, steps: seq<Step>)
    requires |states| == |steps| + 1
    requires forall i :: 0 <= i < |steps| ==> Take(apply, states[i], steps[i]) == Some(states[i + 1])
    ensures TakeAll(apply, states[0], steps) == Some(states[|steps|])
    decreases |steps|
  {
    hide Take;
    if steps != [] {
      TakePath(apply, states[1..], steps[1..]);
    }
  }

  // ---- One gated append, one indexer ----------------------------------------------------------------------

  /** An append by a gated writer, up to but not including its commit. */
  function Appending(t: TxId, p: Partition, e: EventRecord): seq<Step> {
    [Begin(t, true), Gate(t, p, e), Number(t), Insert(t)]
  }

  function Indexing(t: TxId, p: Partition, offset: int, e: EventRecord): seq<Step> {
    [Begin(t, false), Index(t, p, offset, e), NoteOffset(t, p, offset), Commit(t)]
  }

  function Catching(v: ViewId): seq<Step> {
    [Fetch(v, 10), Apply(v)]
  }

  /** The database with one more open transaction. */
  function With<S>(s: Database<S>, t: TxId, tx: Tx): Database<S> {
    s.(open := s.open[t := tx])
  }

  lemma WithAgain<S>(s: Database<S>, t: TxId, a: Tx, b: Tx, p: Partition)
    ensures With(s, t, a).open[t := b] == With(s, t, b).open
    ensures Locked(With(s, t, a).open, t, p) ==> Locked(s.open, t, p)
  {
  }

  lemma AppendingTakes<S>(apply: (S, Row) -> S, s: Database<S>, t: TxId, p: Partition, e: EventRecord)
    requires p.Normal() && t !in s.open && s.gate == None && !Locked(s.open, t, p)
    ensures
      var offset := OffsetOf(s.offsets, p) + 1;
      TakeAll(apply, s, Appending(t, p, e)) ==
      Some(With(s.(gate := Some(t), next := s.next + 1), t, Tx(true, [Row(s.next, p, offset, e)], map[p := offset], Ready)))
  {
    hide TakeAll, Locked;
    var offset := OffsetOf(s.offsets, p) + 1;
    var gated := s.(gate := Some(t));
    var tx0, tx1 := Tx(true, [], map[], Ready), Tx(true, [], map[], Gated(p, e));
    var tx2 := Tx(true, [], map[p := offset], Numbered(p, e, offset));
    var tx3 := Tx(true, [Row(s.next, p, offset, e)], map[p := offset], Ready);
    WithAgain(s, t, tx0, tx1, p);
    assert Take(apply, With(s, t, tx0), Gate(t, p, e)) == Some(With(gated, t, tx1));
    WithAgain(gated, t, tx1, tx2, p);
    assert map[][p := offset] == map[p := offset];
    assert Take(apply, With(gated, t, tx1), Number(t)) == Some(With(gated, t, tx2));
    WithAgain(gated, t, tx2, tx3, p);
    assert [] + [Row(s.next, p, offset, e)] == [Row(s.next, p, offset, e)];
    assert Take(apply, With(gated, t, tx2), Insert(t)) == Some(With(gated.(next := s.next + 1), t, tx3));
    TakePath(apply, [s, With(s, t, tx0), With(gated, t, tx1), With(gated, t, tx2),
                     With(gated.(next := s.next + 1), t, tx3)],
             Appending(t, p, e));
  }

  lemma IndexingTakes<S>(apply: (S, Row) -> S, s: Database<S>, t: TxId, p: Partition, offset: int, e: EventRecord)
    requires p.Normal() && t !in s.open && s.gate != Some(t) && offset > 0 && !Locked(s.open, t, p)
    ensures
      TakeAll(apply, s, Indexing(t, p, offset, e)) ==
      Some(s.(rows := s.rows + [Row(s.next, p, offset, e)], next := s.next + 1, indexed := s.indexed + {p},
              offsets := s.offsets + map[p := Greater(OffsetOf(s.offsets, p), offset)]))
  {
    hide TakeAll, Take, Locked, Greater, With;
    var row, noted := Row(s.next, p, offset, e), map[p := Greater(OffsetOf(s.offsets, p), offset)];
    var tx0, tx1, tx2 := Tx(false, [], map[], Ready), Tx(false, [row], map[], Ready), Tx(false, [row], noted, Ready);
    var burnt := s.(next := s.next + 1);
    var raised := burnt.(indexed := s.indexed + {p});
    var after := raised.(rows := s.rows + [row], offsets := s.offsets + noted);
    IndexTakes(apply, s, t, p, offset, e);
    NoteTakes(apply, burnt, t, p, offset, row);
    ForeignCommitTakes(apply, raised, t, tx2);
    TakePath(apply, [s, With(s, t, tx0), With(burnt, t, tx1), With(raised, t, tx2), after], Indexing(t, p, offset, e));
  }

  lemma IndexTakes<S>(apply: (S, Row) -> S, s: Database<S>, t: TxId, p: Partition, offset: int, e: EventRecord)
    requires p.Normal() && t !in s.open && offset > 0
    ensures
      var open := With(s, t, Tx(false, [], map[], Ready));
      && Take(apply, s, Begin(t, false)) == Some(open)
      && Take(apply, open, Index(t, p, offset, e)) ==
         Some(With(s.(next := s.next + 1), t, Tx(false, [Row(s.next, p, offset, e)], map[], Ready)))
  {
    hide Locked;
    var row := Row(s.next, p, offset, e);
    WithAgain(s, t, Tx(false, [], map[], Ready), Tx(false, [row], map[], Ready), p);
    assert [] + [row] == [row];
  }

  lemma NoteTakes<S>(apply: (S, Row) -> S, s: Database<S>, t: TxId, p: Partition, offset: int, row: Row)
    requires p.Normal() && !Locked(s.open, t, p)
    ensures
      var noted := map[p := Greater(OffsetOf(s.offsets, p), offset)];
      Take(apply, With(s, t, Tx(false, [row], map[], Ready)), NoteOffset(t, p, offset)) ==
      Some(With(s.(indexed := s.indexed + {p}), t, Tx(false, [row], noted, Ready)))
  {
    hide Locked, Greater;
    var noted := map[p := Greater(OffsetOf(s.offsets, p), offset)];
    WithAgain(s, t, Tx(false, [row], map[], Ready), Tx(false, [row], noted, Ready), p);
    assert map[][p := noted[p]] == noted;
  }

  lemma ForeignCommitTakes<S>(apply: (S, Row) -> S, s: Database<S>, t: TxId, tx: Tx)
    requires t !in s.open && s.gate != Some(t) && !tx.gated && tx.phase.Ready?
    ensures Take(apply, With(s, t, tx), Commit(t)) ==
            Some(s.(rows := s.rows + tx.rows, offsets := s.offsets + tx.offsets))
  {
    assert With(s, t, tx).open - {t} == s.open;
  }

  /** The failure at an input.  A gated append holds sequence 1 and the gate; an
      indexer inserts and commits sequence 2; a view catches up to 2; then the append
      commits, and the view has lost it. */
  lemma IndexerOvertakesAppend(apply: (seq<int>, Row) -> seq<int>, e: EventRecord, f: EventRecord, p: Partition,
                               q: Partition)
    requires p.Normal() && q.Normal() && p != q
    requires forall seen, row :: apply(seen, row) == seen + [row.scalar]
    ensures
      var s1 := TakeAll(apply, Start([], {"view"}), Appending(0, p, e));
      && s1.Some?
      && var s2 := TakeAll(apply, s1.value, Indexing(1, q, 7, f));
      && s2.Some?
      && var s3 := TakeAll(apply, s2.value, Catching("view"));
      && s3.Some?
      && var s4 := Take(apply, s3.value, Commit(0));
      && s4.Some? && "view" in s4.value.views
      && s4.value.rows == [Row(2, q, 7, f), Row(1, p, 1, e)]
      && s4.value.views["view"].watermark == 2 && s4.value.views["view"].state == [2]
      && Missed(s4.value, "view", Row(1, p, 1, e))
  {
    hide TakeAll, Locked;
    var s0: Database<seq<int>> := Start([], {"view"});
    NotLocked(s0.open, 0, p);
    AppendingTakes(apply, s0, 0, p, e);
    var s1 := TakeAll(apply, s0, Appending(0, p, e)).value;
    NotLocked(s1.open, 1, q);
    IndexingTakes(apply, s1, 1, q, 7, f);
    var s2 := TakeAll(apply, s1, Indexing(1, q, 7, f)).value;
    assert [] + [Row(2, q, 7, f)] == [Row(2, q, 7, f)];
    CatchingTakes(apply, s2, Row(2, q, 7, f));
    var s3 := TakeAll(apply, s2, Catching("view")).value;
    assert [Row(2, q, 7, f)] + [Row(1, p, 1, e)] == [Row(2, q, 7, f), Row(1, p, 1, e)];
  }

  lemma NotLocked(open: map<TxId, Tx>, t: TxId, p: Partition)
    requires forall u :: u in open ==> u == t || p !in open[u].offsets
    ensures !Locked(open, t, p)
  {
  }

  lemma CatchingTakes(apply: (seq<int>, Row) -> seq<int>, s: Database<seq<int>>, row: Row)
    requires s.rows == [row] && row.scalar == 2 && "view" in s.views && s.views["view"] == View([], [], 0, None)
    requires forall seen, r :: apply(seen, r) == seen + [r.scalar]
    ensures TakeAll(apply, s, Catching("view")) == Some(s.(views := s.views["view" := View([2], [row], 2, None)]))
  {
    hide TakeAll, BatchAfter, Applied;
    OneRow(apply, row);
    var s1 := s.(views := s.views["view" := View([], [], 0, Some([row]))]);
    var s2 := s1.(views := s1.views["view" := View([2], [row], 2, None)]);
    assert Take(apply, s, Fetch("view", 10)) == Some(s1);
    assert Take(apply, s1, Apply("view")) == Some(s2);
    TakePath(apply, [s, s1, s2], Catching("view"));
    assert s2.views == s.views["view" := View([2], [row], 2, None)];
  }

  lemma OneRow(apply: (seq<int>, Row) -> seq<int>, row: Row)
    requires row.scalar == 2 && forall seen, r :: apply(seen, r) == seen + [r.scalar]
    ensures BatchAfter([row], 0, 10) == [row]
    ensures Applied(apply, View([], [], 0, Some([row]))) == View([2], [row], 2, None)
  {
    assert [row][..0] == [];
    assert RowsAfter([row], 0) == [row] && Sorted([row]) == [row];
    assert Fold(apply, [], [row]) == [2] by {
      FoldNone(apply, [], [row]);
      FoldStep(apply, [], [row], 0);
      assert [row][..0 + 1] == [row];
      assert [] + [row.scalar] == [2];
    }
    assert [] + [row] == [row];
    assert Head([row]) == 2;
  }
}
