/** The SQL event log under concurrent transactions, and derived views that follow
    it by a scalar watermark.  Sequence numbers are never rolled back and offset rows
    are.  Appends hold the gate until their transaction ends; the compatibility
    indexer inserts rows of its own beside them and takes no gate. */
module SqlEventLog {
  import opened LogModel
  import opened BrokerEventLog

  type TxId = nat
  type ViewId = string

  const DEFAULT_BATCH := 500

  datatype Row = Row(scalar: int, partition: Partition, offset: int, event: EventRecord)

  /** Where a transaction is inside one append. */
  datatype Phase =
    | Ready
    | Gated(partition: Partition, event: EventRecord)
    | Numbered(partition: Partition, event: EventRecord, offset: int)

  /** Uncommitted writes: rows, and the offset rows this transaction changed and
      therefore has locked. */
  datatype Tx = Tx(gated: bool, rows: seq<Row>, offsets: map<Partition, int>, phase: Phase)

  /** A view: its state, the rows it applied, its watermark, and a fetched batch. */
  datatype View<S> = View(state: S, seen: seq<Row>, watermark: int, batch: Option<seq<Row>>)

  /** `rows` is the table in commit order, `native` the part that gated appends
      wrote, `indexed` the partitions whose offset row an indexer has raised. */
  datatype Database<S> = Database(
    rows: seq<Row>, native: seq<Row>, offsets: map<Partition, int>, next: int, gate: Option<TxId>,
    open: map<TxId, Tx>, indexed: set<Partition>, views: map<ViewId, View<S>>)

  datatype Step =
    | Begin(t: TxId, gated: bool)
    | Gate(t: TxId, partition: Partition, event: EventRecord)
    | Number(t: TxId)
    | Insert(t: TxId)
    | Index(t: TxId, partition: Partition, offset: int, event: EventRecord)
    | NoteOffset(t: TxId, partition: Partition, offset: int)
    | Burn
    | Commit(t: TxId)
    | Abort(t: TxId)
    | Fetch(v: ViewId, limit: int)
    | Apply(v: ViewId)
    | Drop(v: ViewId)

  /** The offset row an append counts in. */
  function Counter(p: Partition): Partition {
    if p.kind == "" || p.key == "" then Partition(GLOBAL, GLOBAL) else p
  }

  function Local<S>(s: Database<S>, tx: Tx, p: Partition): int {
    if p in tx.offsets then tx.offsets[p] else OffsetOf(s.offsets, p)
  }

  /** Another transaction changed this offset row and has not ended. */
  predicate Locked(open: map<TxId, Tx>, t: TxId, p: Partition) {
    exists u :: u in open && u != t && p in open[u].offsets
  }

  function Head(rows: seq<Row>): (h: int)
    ensures h >= 0 && forall i :: 0 <= i < |rows| ==> rows[i].scalar <= h
    ensures h == 0 || exists i :: 0 <= i < |rows| && rows[i].scalar == h
  {
    if rows == [] then 0
    else Greater(rows[|rows| - 1].scalar, Head(rows[..|rows| - 1]))
  }

  function RowsAfter(rows: seq<Row>, after: int): seq<Row> {
    if rows == [] then []
    else
      var last := rows[|rows| - 1];
      RowsAfter(rows[..|rows| - 1], after) + if last.scalar > after then [last] else []
  }

  /** ORDER BY seq. */
  function Sorted(rows: seq<Row>): seq<Row> {
    if rows == [] then [] else Placed(Sorted(rows[..|rows| - 1]), rows[|rows| - 1])
  }

  function Placed(rows: seq<Row>, row: Row): seq<Row> {
    if rows != [] && row.scalar < rows[|rows| - 1].scalar then Placed(rows[..|rows| - 1], row) + [rows[|rows| - 1]]
    else rows + [row]
  }

  function BatchAfter(rows: seq<Row>, mark: int, limit: int): seq<Row> {
    Limit(Sorted(RowsAfter(rows, mark)), if limit <= 0 then DEFAULT_BATCH else limit)
  }

  lemma DefaultBatchIs(rows: seq<Row>, mark: int, limit: int)
    requires limit <= 0
    ensures BatchAfter(rows, mark, limit) == BatchAfter(rows, mark, 500)
  {
  }

  function Release(gate: Option<TxId>, t: TxId): Option<TxId> {
    if gate == Some(t) then None else gate
  }

  /** One step.  None: not enabled. */
  function Take<S>(apply: (S, Row) -> S, s: Database<S>, step: Step): Option<Database<S>> {
    match step
    case Begin(t, gated) =>
      if t in s.open then None else Some(s.(open := s.open[t := Tx(gated, [], map[], Ready)]))
    case Gate(t, partition, event) =>
      if t !in s.open || !s.open[t].gated || !s.open[t].phase.Ready? || (s.gate != None && s.gate != Some(t)) then None
      else Some(s.(gate := Some(t), open := s.open[t := s.open[t].(phase := Gated(partition, event))]))
    case Number(t) =>
      if t !in s.open || !s.open[t].phase.Gated? || Locked(s.open, t, Counter(s.open[t].phase.partition)) then None
      else
        var tx := s.open[t];
        var p := Counter(tx.phase.partition);
        var offset := Local(s, tx, p) + 1;
        Some(s.(open := s.open[t := tx.(offsets := tx.offsets[p := offset],
                                        phase := Numbered(tx.phase.partition, tx.phase.event, offset))]))
    case Insert(t) =>
      if t !in s.open || !s.open[t].phase.Numbered? then None
      else
        var tx := s.open[t];
        var row := Row(s.next, tx.phase.partition, tx.phase.offset, tx.phase.event);
        Some(s.(next := s.next + 1, open := s.open[t := tx.(rows := tx.rows + [row], phase := Ready)]))
    case Index(t, partition, offset, event) =>
      if t !in s.open || s.open[t].gated || offset <= 0 then None
      else
        var tx := s.open[t];
        Some(s.(next := s.next + 1,
                open := s.open[t := tx.(rows := tx.rows + [Row(s.next, partition.Normalize(), offset, event)])]))
    case NoteOffset(t, partition, offset) =>
      var p := partition.Normalize();
      if t !in s.open || s.open[t].gated || Locked(s.open, t, p) then None
      else
        var tx := s.open[t];
        Some(s.(indexed := s.indexed + {p},
                open := s.open[t := tx.(offsets := tx.offsets[p := Greater(Local(s, tx, p), offset)])]))
    case Burn => Some(s.(next := s.next + 1))
    case Commit(t) =>
      if t !in s.open || !s.open[t].phase.Ready? then None
      else
        var tx := s.open[t];
        Some(s.(rows := s.rows + tx.rows, native := if tx.gated then s.native + tx.rows else s.native,
                offsets := s.offsets + tx.offsets, gate := Release(s.gate, t), open := s.open - {t}))
    case Abort(t) =>
      if t !in s.open then None else Some(s.(gate := Release(s.gate, t), open := s.open - {t}))
    case Fetch(v, limit) =>
      if v !in s.views || s.views[v].batch.Some? then None
      else Some(s.(views := s.views[v := s.views[v].(batch := Some(BatchAfter(s.rows, s.views[v].watermark, limit)))]))
    case Apply(v) =>
      if v !in s.views || s.views[v].batch.None? then None
      else Some(s.(views := s.views[v := Applied(apply, s.views[v])]))
    case Drop(v) =>
      if v !in s.views then None else Some(s.(views := s.views[v := s.views[v].(batch := None)]))
  }

  /** State and watermark change together. */
  function Applied<S>(apply: (S, Row) -> S, view: View<S>): View<S>
    requires view.batch.Some?
  {
    var batch := view.batch.value;
    View(Fold(apply, view.state, batch), view.seen + batch, Greater(Head(batch), view.watermark), None)
  }

  function Start<S>(init: S, views: set<ViewId>): Database<S> {
    Database([], [], map[], 1, None, map[], {}, map v | v in views :: View(init, [], 0, None))
  }

  ghost predicate Run<S(!new)>(apply: (S, Row) -> S, init: S, states: seq<Database<S>>, steps: seq<Step>) {
    && |states| == |steps| + 1 && (exists views :: states[0] == Start(init, views))
    && forall i :: 0 <= i < |steps| ==> Take(apply, states[i], steps[i]) == Some(states[i + 1])
  }

  // ---- Gated writers ------------------------------------------------------------------

  function RowsOf(rows: seq<Row>, p: Partition): (r: seq<Row>)
    ensures |r| <= |rows|
  {
    if rows == [] then []
    else
      var last := rows[|rows| - 1];
      RowsOf(rows[..|rows| - 1], p) + if Counter(last.partition) == p then [last] else []
  }

  ghost predicate Ascending(rows: seq<Row>) {
    forall i, j :: 0 <= i < j < |rows| ==> rows[i].scalar < rows[j].scalar
  }

  ghost predicate Within(rows: seq<Row>, next: int) {
    forall i :: 0 <= i < |rows| ==> 1 <= rows[i].scalar < next
  }

  /** Offsets 1, 2, ... of one counter, and how many were handed out. */
  ghost predicate Counted(rows: seq<Row>, p: Partition, n: int) {
    && |RowsOf(rows, p)| == n
    && forall k :: 0 <= k < n ==> RowsOf(rows, p)[k].offset == k + 1
  }

  /** Handed out to this transaction and not yet in a row. */
  function Extra(phase: Phase, p: Partition): int {
    if phase.Numbered? && Counter(phase.partition) == p then 1 else 0
  }

  /** What the holder of the gate has written follows what gated appends committed. */
  ghost predicate WriterSound<S>(s: Database<S>, tx: Tx) {
    && Ascending(s.native + tx.rows) && Within(s.native + tx.rows, s.next)
    && (forall p :: p !in s.indexed ==> Counted(s.native + tx.rows, p, Local(s, tx, p) - Extra(tx.phase, p)))
    && (tx.phase.Numbered? ==> Counter(tx.phase.partition) in tx.offsets && tx.phase.offset == tx.offsets[Counter(tx.phase.partition)])
  }

  ghost predicate TxSound<S>(s: Database<S>, t: TxId, tx: Tx) {
    if !tx.gated then tx.phase.Ready? && s.gate != Some(t) && forall p :: p in tx.offsets ==> p in s.indexed
    else if s.gate == Some(t) then WriterSound(s, tx)
    else tx.rows == [] && tx.offsets == map[] && tx.phase.Ready?
  }

  ghost predicate GateInv<S>(s: Database<S>) {
    && s.next >= 1 && Ascending(s.native) && Within(s.native, s.next)
    && (forall p :: p !in s.indexed ==> Counted(s.native, p, OffsetOf(s.offsets, p)))
    && (s.gate.Some? ==> s.gate.value in s.open)
    && (forall t :: t in s.open ==> TxSound(s, t, s.open[t]))
  }

  lemma RowsOfAppend(rows: seq<Row>, row: Row, p: Partition)
    ensures RowsOf(rows + [row], p) == RowsOf(rows, p) + if Counter(row.partition) == p then [row] else []
  {
    assert (rows + [row])[..|rows|] == rows;
  }

  /** A writer stays sound while others only touch indexed partitions. */
  lemma WriterStays<S>(s: Database<S>, s': Database<S>, tx: Tx)
    requires WriterSound(s, tx) && s'.native == s.native && s'.next >= s.next && s.indexed <= s'.indexed
    requires forall p :: p !in s'.indexed ==> OffsetOf(s'.offsets, p) == OffsetOf(s.offsets, p)
    ensures WriterSound(s', tx)
  {
    forall p | p !in s'.indexed ensures Counted(s'.native + tx.rows, p, Local(s', tx, p) - Extra(tx.phase, p)) {
      assert Counted(s.native + tx.rows, p, Local(s, tx, p) - Extra(tx.phase, p));
    }
  }

  /** All other transactions stay sound. */
  lemma OthersStay<S>(s: Database<S>, s': Database<S>)
    requires GateInv(s) && s'.native == s.native && s'.next >= s.next && s.indexed <= s'.indexed
    requires s'.gate == s.gate
    requires forall p :: p !in s'.indexed ==> OffsetOf(s'.offsets, p) == OffsetOf(s.offsets, p)
    ensures forall t :: t in s.open ==> TxSound(s', t, s.open[t])
  {
    hide WriterSound;
    forall t | t in s.open ensures TxSound(s', t, s.open[t]) {
      assert TxSound(s, t, s.open[t]);
      if s.gate == Some(t) && s.open[t].gated {
        WriterStays(s, s', s.open[t]);
      }
    }
  }

  lemma GateKeeps<S>(apply: (S, Row) -> S, s: Database<S>, s': Database<S>, step: Step)
    requires GateInv(s) && Take(apply, s, step) == Some(s') && step.Gate?
    ensures GateInv(s')
  {
    hide Counted, Ascending, Within;
    var t := step.t;
    var tx := s.open[t];
    assert TxSound(s, t, tx);
    if s.gate == None {
      assert s.native + [] == s.native;
    }
    assert WriterSound(s', s'.open[t]) by {
      forall p | p !in s'.indexed
        ensures Counted(s'.native + tx.rows, p, Local(s', s'.open[t], p) - Extra(s'.open[t].phase, p))
      {
        if s.gate == Some(t) {
          assert Counted(s.native + tx.rows, p, Local(s, tx, p) - Extra(tx.phase, p));
        }
      }
    }
    forall u | u in s'.open && u != t ensures TxSound(s', u, s'.open[u]) {
      assert TxSound(s, u, s.open[u]);
    }
  }

  lemma NumberKeeps<S>(s: Database<S>, tx: Tx, tx': Tx)
    requires WriterSound(s, tx) && tx.phase.Gated?
    requires
      var p := Counter(tx.phase.partition);
      var offset := Local(s, tx, p) + 1;
      tx' == tx.(offsets := tx.offsets[p := offset], phase := Numbered(tx.phase.partition, tx.phase.event, offset))
    ensures WriterSound(s, tx')
  {
    forall p | p !in s.indexed ensures Counted(s.native + tx'.rows, p, Local(s, tx', p) - Extra(tx'.phase, p)) {
      assert Counted(s.native + tx.rows, p, Local(s, tx, p) - Extra(tx.phase, p));
    }
  }

  lemma InsertKeeps<S>(s: Database<S>, tx: Tx, s': Database<S>)
    requires WriterSound(s, tx) && tx.phase.Numbered? && s.next >= 1
    requires s'.native == s.native && s'.offsets == s.offsets && s'.indexed == s.indexed && s'.next == s.next + 1
    ensures WriterSound(s', tx.(rows := tx.rows + [Row(s.next, tx.phase.partition, tx.phase.offset, tx.phase.event)],
                                phase := Ready))
  {
    var row := Row(s.next, tx.phase.partition, tx.phase.offset, tx.phase.event);
    var tx' := tx.(rows := tx.rows + [row], phase := Ready);
    assert s.native + tx'.rows == (s.native + tx.rows) + [row];
    forall p | p !in s'.indexed ensures Counted(s'.native + tx'.rows, p, Local(s', tx', p) - Extra(tx'.phase, p)) {
      assert Counted(s.native + tx.rows, p, Local(s, tx, p) - Extra(tx.phase, p));
      RowsOfAppend(s.native + tx.rows, row, p);
    }
  }

  lemma AppendKeeps<S>(apply: (S, Row) -> S, s: Database<S>, s': Database<S>, step: Step)
    requires GateInv(s) && Take(apply, s, step) == Some(s') && (step.Number? || step.Insert?)
    ensures GateInv(s')
  {
    hide Counted, Ascending, WriterSound;
    var tx := s.open[step.t];
    assert TxSound(s, step.t, tx);
    OthersStay(s, s');
    if step.Number? {
      NumberKeeps(s, tx, s'.open[step.t]);
      WriterStays(s, s', s'.open[step.t]);
    } else {
      InsertKeeps(s, tx, s');
    }
  }

  lemma OtherKeeps<S>(apply: (S, Row) -> S, s: Database<S>, s': Database<S>, step: Step)
    requires GateInv(s) && Take(apply, s, step) == Some(s')
    requires step.Begin? || step.Index? || step.NoteOffset? || step.Burn? || step.Fetch? || step.Apply? || step.Drop?
    ensures GateInv(s')
  {
    hide Counted, Ascending, WriterSound, Applied, BatchAfter, Locked;
    OthersStay(s, s');
    if step.Begin? || step.Index? || step.NoteOffset? {
      assert !step.Begin? ==> TxSound(s, step.t, s.open[step.t]);
      assert TxSound(s', step.t, s'.open[step.t]);
    }
  }

  lemma AbortKeeps<S>(apply: (S, Row) -> S, s: Database<S>, s': Database<S>, t: TxId)
    requires GateInv(s) && Take(apply, s, Abort(t)) == Some(s')
    ensures GateInv(s')
  {
    hide Counted, Ascending;
    forall u | u in s'.open ensures TxSound(s', u, s'.open[u]) {
      assert TxSound(s, u, s.open[u]);
      if s.gate == Some(u) && s.open[u].gated {
        WriterStays(s, s', s.open[u]);
      }
    }
  }

  lemma CommitKeepsGate<S>(apply: (S, Row) -> S, s: Database<S>, s': Database<S>, t: TxId)
    requires GateInv(s) && Take(apply, s, Commit(t)) == Some(s')
    ensures GateInv(s')
  {
    hide Counted, Ascending, Within;
    var tx := s.open[t];
    assert TxSound(s, t, tx);
    if s.gate == Some(t) {
      assert WriterSound(s, tx);
      forall p | p !in s'.indexed ensures Counted(s'.native, p, OffsetOf(s'.offsets, p)) {
        assert Counted(s.native + tx.rows, p, Local(s, tx, p) - Extra(tx.phase, p));
      }
      forall u | u in s'.open ensures TxSound(s', u, s'.open[u]) {
        assert TxSound(s, u, s.open[u]);
      }
    } else {
      assert tx.gated ==> s.native + tx.rows == s.native;
      assert forall p :: p !in s.indexed ==> OffsetOf(s'.offsets, p) == OffsetOf(s.offsets, p);
      OthersStay(s, s');
    }
  }

  lemma GateStep<S>(apply: (S, Row) -> S, s: Database<S>, s': Database<S>, step: Step)
    requires GateInv(s) && Take(apply, s, step) == Some(s')
    ensures GateInv(s')
  {
    hide GateInv, Take;
    match step {
      case Gate(_, _, _) => GateKeeps(apply, s, s', step);
      case Number(_) => AppendKeeps(apply, s, s', step);
      case Insert(_) => AppendKeeps(apply, s, s', step);
      case Commit(t) => CommitKeepsGate(apply, s, s', t);
      case Abort(t) => AbortKeeps(apply, s, s', t);
      case _ => OtherKeeps(apply, s, s', step);
    }
  }

  lemma {:induction false} GateRun<S(!new)>(apply: (S, Row) -> S, init: S, states: seq<Database<S>>, steps: seq<Step>, i: nat)
    requires Run(apply, init, states, steps) && i < |states|
    ensures GateInv(states[i])
  {
    hide Take;
    if i > 0 {
      GateRun(apply, init, states, steps, i - 1);
      GateStep(apply, states[i - 1], states[i], steps[i - 1]);
    }
  }

  /** Whatever a gated append commits between two moments of a run comes after every
      row that gated appends had committed at the first of them. */
  lemma {:induction false} CommitsPassTheHead<S(!new)>(apply: (S, Row) -> S, init: S,
                                                       states: seq<Database<S>>, steps: seq<Step>, i: nat, j: nat)
    requires Run(apply, init, states, steps) && i <= j < |states|
    ensures states[i].native <= states[j].native
    ensures forall k :: |states[i].native| <= k < |states[j].native| ==>
              states[j].native[k].scalar > Head(states[i].native)
  {
    hide Counted, TxSound, Head, BatchAfter, Applied, Locked;
    if i < j {
      CommitsPassTheHead(apply, init, states, steps, i, j - 1);
      assert Take(apply, states[j - 1], steps[j - 1]) == Some(states[j]);
    }
    GateRun(apply, init, states, steps, j);
    PastHead(states[i].native, states[j].native, states[j].next);
  }

  lemma PastHead(rows: seq<Row>, all: seq<Row>, next: int)
    requires rows <= all && Ascending(all) && Within(all, next)
    ensures forall k :: |rows| <= k < |all| ==> all[k].scalar > Head(rows)
  {
    hide Head;
    forall k | |rows| <= k < |all| ensures all[k].scalar > Head(rows) {
      if Head(rows) != 0 {
        var i :| 0 <= i < |rows| && rows[i].scalar == Head(rows);
        assert all[i].scalar < all[k].scalar;
      }
    }
  }

  /** The offsets that gated appends committed in a partition whose offset row no
      indexer raised are exactly 1..n, whatever aborted and whatever was indexed
      elsewhere. */
  lemma OffsetsHaveNoGap<S(!new)>(apply: (S, Row) -> S, init: S, states: seq<Database<S>>, steps: seq<Step>, i: nat,
                                  p: Partition)
    requires Run(apply, init, states, steps) && i < |states| && p !in states[i].indexed
    ensures
      var mine := RowsOf(states[i].native, p);
      && OffsetOf(states[i].offsets, p) == |mine|
      && forall k :: 0 <= k < |mine| ==> mine[k].offset == k + 1
  {
    GateRun(apply, init, states, steps, i);
    assert Counted(states[i].native, p, OffsetOf(states[i].offsets, p));
  }

  // ---- Offset rows ---------------------------------------------------------------------------------

  /** An open transaction that changed an offset row has it alone and has not lowered it. */
  ghost predicate RowsHeld<S>(s: Database<S>) {
    && (forall t, p :: t in s.open && p in s.open[t].offsets ==> OffsetOf(s.offsets, p) <= s.open[t].offsets[p])
    && (forall t, u, p :: t in s.open && u in s.open && t != u && p in s.open[t].offsets ==> p !in s.open[u].offsets)
  }

  lemma RowsStep<S>(apply: (S, Row) -> S, s: Database<S>, s': Database<S>, step: Step)
    requires RowsHeld(s) && Take(apply, s, step) == Some(s')
    ensures RowsHeld(s') && forall p :: OffsetOf(s.offsets, p) <= OffsetOf(s'.offsets, p)
  {
    hide BatchAfter, Applied, RowsHeld, Locked;
    match step {
      case Number(t) => RowRaised(s, s', t, Counter(s.open[t].phase.partition), s'.open[t]);
      case NoteOffset(t, partition, _) => RowRaised(s, s', t, partition.Normalize(), s'.open[t]);
      case Commit(t) => RowsCommitted(s, s', t);
      case _ => RowsSame(s, s');
    }
  }

  lemma RowRaised<S>(s: Database<S>, s': Database<S>, t: TxId, p: Partition, tx: Tx)
    requires RowsHeld(s) && t in s.open && !Locked(s.open, t, p) && s'.offsets == s.offsets
    requires s'.open == s.open[t := tx]
    requires p in tx.offsets && tx.offsets == s.open[t].offsets[p := tx.offsets[p]]
    requires Local(s, s.open[t], p) <= tx.offsets[p]
    ensures RowsHeld(s')
  {
  }

  lemma RowsCommitted<S>(s: Database<S>, s': Database<S>, t: TxId)
    requires RowsHeld(s) && t in s.open && s'.offsets == s.offsets + s.open[t].offsets && s'.open == s.open - {t}
    ensures RowsHeld(s') && forall p :: OffsetOf(s.offsets, p) <= OffsetOf(s'.offsets, p)
  {
    var mine := s.open[t].offsets;
    forall p ensures OffsetOf(s'.offsets, p) == if p in mine then mine[p] else OffsetOf(s.offsets, p) {
    }
    forall u, p | u in s'.open && p in s'.open[u].offsets ensures OffsetOf(s'.offsets, p) <= s'.open[u].offsets[p] {
      assert u in s.open && u != t && p !in mine;
    }
  }

  lemma RowsSame<S>(s: Database<S>, s': Database<S>)
    requires RowsHeld(s) && s'.offsets == s.offsets
    requires forall t :: t in s'.open ==> s'.open[t].offsets == map[] || (t in s.open && s'.open[t].offsets == s.open[t].offsets)
    ensures RowsHeld(s')
  {
  }

  /** Over every run, with appends and indexers side by side, the last offset on record for a
      partition never falls. */
  lemma {:induction false} OffsetRowsNeverFall<S(!new)>(apply: (S, Row) -> S, init: S, states: seq<Database<S>>,
                                                        steps: seq<Step>, i: nat, j: nat, p: Partition)
    requires Run(apply, init, states, steps) && i <= j < |states|
    ensures RowsHeld(states[j]) && OffsetOf(states[i].offsets, p) <= OffsetOf(states[j].offsets, p)
  {
    hide Take, RowsHeld;
    if j == 0 {
      StartHeld(init, states[0]);
    } else {
      OffsetRowsNeverFall(apply, init, states, steps, if i < j then i else j - 1, j - 1, p);
      RowsStep(apply, states[j - 1], states[j], steps[j - 1]);
    }
  }

  lemma StartHeld<S(!new)>(init: S, s: Database<S>)
    requires exists views :: s == Start(init, views)
    ensures RowsHeld(s)
  {
  }
}
