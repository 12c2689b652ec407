/** The partition index beside the command log: monotone upserts made before and
    after the log's own calls, with a crash possible between any two of them. */
module PartitionIndex {
  import opened LogModel
  import C = BrokerCommandLog

  datatype IndexRow = IndexRow(tail: int, committed: int)

  type Index = map<Partition, IndexRow>

  function RecordTail(rows: Index, partition: Partition, offset: int): Index {
    var p, o := partition.Normalize(), Greater(offset, 0);
    rows[p := if p in rows then rows[p].(tail := Greater(o, rows[p].tail)) else IndexRow(o, 0)]
  }

  function RecordCommit(rows: Index, partition: Partition, offset: int): Index {
    var p, o := partition.Normalize(), Greater(offset, 0);
    rows[p := if p in rows then rows[p].(committed := Greater(o, rows[p].committed)) else IndexRow(0, o)]
  }

  /** A row as it is listed: the committed offset never shows past the tail. */
  function Listed(row: IndexRow): IndexRow {
    row.(committed := if row.committed > row.tail then row.tail else row.committed)
  }

  /** Where a drain starts. */
  function CommittedOffset(rows: Index, p: Partition): int {
    if p in rows then Listed(rows[p]).committed else 0
  }

  /** Row p holds the larger of what it held, nothing counting as zero, and these offsets;
      no other row changed. */
  ghost predicate RowRaised(before: Index, after: Index, p: Partition, tail: int, committed: int) {
    && p in after
    && (p !in before ==>
          after[p].tail == (if tail > 0 then tail else 0) && after[p].committed == (if committed > 0 then committed else 0))
    && (p in before ==>
          && after[p].tail == (if tail > before[p].tail then tail else before[p].tail)
          && after[p].committed == (if committed > before[p].committed then committed else before[p].committed))
    && (forall q :: q != p ==> (q in before <==> q in after) && (q in before ==> after[q] == before[q]))
  }

  lemma TailRaises(rows: Index, log: C.CommandLog, partition: Partition, offset: int)
    requires Trails(rows, log)
    ensures RowRaised(rows, RecordTail(rows, partition, offset), partition.Normalize(), offset, 0)
  {
    assert forall p :: p in rows ==> RowSound(log, p, rows[p]);
  }

  lemma CommitRaises(rows: Index, log: C.CommandLog, partition: Partition, offset: int)
    requires Trails(rows, log)
    ensures RowRaised(rows, RecordCommit(rows, partition, offset), partition.Normalize(), 0, offset)
  {
    assert forall p :: p in rows ==> RowSound(log, p, rows[p]);
  }

  /** Raising twice is raising to the larger. */
  lemma RaisedOn(one: Index, two: Index, three: Index, p: Partition, first: int, second: int)
    requires RowRaised(one, two, p, first, 0) && RowRaised(two, three, p, second, 0) && first <= second
    ensures RowRaised(one, three, p, second, 0)
  {
  }

  /** A drain starts from the committed offset of the row, or from its tail if that is
      smaller, and from zero without a row. */
  lemma StartsFrom(rows: Index, p: Partition)
    ensures p !in rows ==> CommittedOffset(rows, p) == 0
    ensures p in rows && rows[p].committed <= rows[p].tail ==> CommittedOffset(rows, p) == rows[p].committed
    ensures p in rows && rows[p].tail <= rows[p].committed ==> CommittedOffset(rows, p) == rows[p].tail
  {
  }

  ghost predicate RowSound(log: C.CommandLog, p: Partition, row: IndexRow) {
    p.Normal() && 0 <= row.tail <= log.Tail(p) && 0 <= row.committed <= log.Committed(p)
  }

  /** The index trails the log and names every partition that holds a command. */
  ghost predicate Trails(rows: Index, log: C.CommandLog) {
    && (forall p :: p in rows ==> RowSound(log, p, rows[p]))
    && (forall i :: 0 <= i < |log.stream| ==> log.stream[i].partition in rows)
  }

  lemma TailKeeps(rows: Index, log: C.CommandLog, partition: Partition, offset: int)
    requires Trails(rows, log) && C.Valid(log) && offset <= log.Tail(partition.Normalize())
    ensures Trails(RecordTail(rows, partition, offset), log) && rows.Keys <= RecordTail(rows, partition, offset).Keys
    ensures partition.Normalize() in RecordTail(rows, partition, offset)
  {
    C.DenseOf(log, partition.Normalize());
  }

  lemma CommitKeeps(rows: Index, log: C.CommandLog, partition: Partition, offset: int)
    requires Trails(rows, log) && C.Valid(log) && offset <= log.Committed(partition.Normalize())
    ensures Trails(RecordCommit(rows, partition, offset), log)
    ensures rows.Keys <= RecordCommit(rows, partition, offset).Keys
  {
    C.DenseOf(log, partition.Normalize());
  }

  /** Commands are only added and committed offsets only grow. */
  ghost predicate Grows(log: C.CommandLog, log': C.CommandLog) {
    forall p :: log.Tail(p) <= log'.Tail(p) && log.Committed(p) <= log'.Committed(p)
  }

  lemma AppendedStored(log: C.CommandLog, now: int, record: C.CommandRecord)
    requires C.AppendCommand(log, now, record.partition, record).Ok?
    ensures
      var a := C.AppendCommand(log, now, record.partition, record).value;
      && a.message in a.log.stream
      && forall m :: m in a.log.stream ==> m in log.stream || m.partition == record.partition.Normalize()
  {
  }

  lemma ProduceKeeps(rows: Index, log: C.CommandLog, now: int, record: C.CommandRecord)
    requires Trails(rows, log) && C.Valid(log) && record.partition.Normalize() in rows
    requires C.AppendCommand(log, now, record.partition, record).Ok?
    ensures
      var a := C.AppendCommand(log, now, record.partition, record).value;
      && C.Valid(a.log) && Grows(log, a.log) && Trails(rows, a.log)
      && a.message.partition.Normal() && a.message.offset <= a.log.Tail(a.message.partition)
  {
    hide C.Valid, C.AppendCommand;
    var a := C.AppendCommand(log, now, record.partition, record).value;
    C.AppendCommandValid(log, now, record.partition, record);
    AppendedStored(log, now, record);
    forall p ensures log.Tail(p) <= a.log.Tail(p) {
      assert PartitionOf(log.stream, p) <= PartitionOf(a.log.stream, p);
    }
    assert forall p :: p in rows ==> RowSound(log, p, rows[p]);
    forall i | 0 <= i < |a.log.stream| ensures a.log.stream[i].partition in rows {
      assert a.log.stream[i] in a.log.stream;
    }
    StoredOffset(a.log, a.message);
  }

  lemma StoredOffset(log: C.CommandLog, m: C.CommandMessage)
    requires C.Valid(log) && m in log.stream
    ensures m.partition.Normal() && 1 <= m.offset <= log.Tail(m.partition) && m.data.offset == m.offset
    ensures m.data.partition == m.partition
  {
    var i :| 0 <= i < |log.stream| && log.stream[i] == m;
    assert C.Placed(log.stream[i]);
    PartitionOfMember(log.stream, m);
    var k :| 0 <= k < |PartitionOf(log.stream, m.partition)| && PartitionOf(log.stream, m.partition)[k] == m;
    assert Dense(PartitionOf(log.stream, m.partition));
  }

  // ---- Concurrent callers ------------------------------------------------------------------

  type Client = nat

  /** Where a caller is between two calls. */
  datatype Place =
    | Announced(record: C.CommandRecord)
    | Produced(partition: Partition, offset: int)
    | Fetched(messages: seq<C.CommandMessage>)
    | Committed(partition: Partition, offset: int)

  datatype State = State(log: C.CommandLog, rows: Index, clients: map<Client, Place>)

  datatype Step =
    | Announce(c: Client, record: C.CommandRecord)
    | Append(c: Client, now: int)
    | NoteTail(c: Client)
    | Fetch(c: Client, partition: Partition, after: int, limit: int)
    | NoteFetched(c: Client)
    | Commit(c: Client, partition: Partition, offset: int)
    | NoteCommit(c: Client)
    | Crash(c: Client)

  function Take(s: State, step: Step): Option<State> {
    match step
    case Announce(c, record) =>
      if c in s.clients then None
      else Some(s.(rows := RecordTail(s.rows, record.partition, 0), clients := s.clients[c := Announced(record)]))
    case Append(c, now) =>
      if c !in s.clients || !s.clients[c].Announced? then None
      else
        var record := s.clients[c].record;
        var r := C.AppendCommand(s.log, now, record.partition, record);
        if r.Err? then Some(s.(clients := s.clients - {c}))
        else Some(s.(log := r.value.log, clients := s.clients[c := Produced(r.value.message.partition, r.value.message.offset)]))
    case NoteTail(c) =>
      if c !in s.clients || !s.clients[c].Produced? then None
      else Some(s.(rows := RecordTail(s.rows, s.clients[c].partition, s.clients[c].offset), clients := s.clients - {c}))
    case Fetch(c, partition, after, limit) =>
      if c in s.clients then None
      else Some(s.(clients := s.clients[c := Fetched(Limit(After(PartitionOf(s.log.stream, partition.Normalize()), after), limit))]))
    case NoteFetched(c) =>
      if c !in s.clients || !s.clients[c].Fetched? then None
      else if s.clients[c].messages == [] then Some(s.(clients := s.clients - {c}))
      else
        var m := s.clients[c].messages[0].data;
        Some(s.(rows := RecordTail(s.rows, m.partition, m.offset),
                clients := s.clients[c := Fetched(s.clients[c].messages[1..])]))
    case Commit(c, partition, offset) =>
      if c in s.clients then None
      else Some(s.(log := s.log.(committed := C.Commit(s.log.committed, partition, Greater(offset, 0))),
                   clients := s.clients[c := Committed(partition, offset)]))
    case NoteCommit(c) =>
      if c !in s.clients || !s.clients[c].Committed? then None
      else Some(s.(rows := RecordCommit(s.rows, s.clients[c].partition, s.clients[c].offset),
                   clients := s.clients - {c}))
    case Crash(c) => Some(s.(clients := s.clients - {c}))
  }

  const Init := State(C.CommandLog([], map[]), map[], map[])

  ghost predicate Run(states: seq<State>, steps: seq<Step>) {
    && |states| == |steps| + 1 && states[0] == Init
    && forall i :: 0 <= i < |steps| ==> Take(states[i], steps[i]) == Some(states[i + 1])
  }

  /** What a caller still has to note is true of the log. */
  ghost predicate PlaceSound(log: C.CommandLog, rows: Index, place: Place) {
    match place
    case Announced(record) => record.partition.Normalize() in rows
    case Produced(partition, offset) => offset <= log.Tail(partition.Normalize())
    case Fetched(messages) =>
      forall i :: 0 <= i < |messages| ==> messages[i].data.offset <= log.Tail(messages[i].data.partition.Normalize())
    case Committed(partition, offset) => offset <= log.Committed(partition.Normalize())
  }

  ghost predicate Inv(s: State) {
    && C.Valid(s.log) && Trails(s.rows, s.log)
    && forall c :: c in s.clients ==> PlaceSound(s.log, s.rows, s.clients[c])
  }

  lemma PlacesStay(log: C.CommandLog, log': C.CommandLog, rows: Index, rows': Index, clients: map<Client, Place>)
    requires Grows(log, log') && rows.Keys <= rows'.Keys && forall c :: c in clients ==>
              PlaceSound(log, rows, clients[c])
    ensures forall c :: c in clients ==> PlaceSound(log', rows', clients[c])
  {
    forall c | c in clients ensures PlaceSound(log', rows', clients[c]) {
      assert PlaceSound(log, rows, clients[c]);
    }
  }

  lemma LogStepKeeps(s: State, s': State, step: Step)
    requires Inv(s) && Take(s, step) == Some(s') && (step.Append? || step.Commit?)
    ensures Inv(s')
  {
    hide C.Valid, Trails, C.AppendCommand;
    match step {
      case Append(c, now) =>
        var record := s.clients[c].record;
        assert PlaceSound(s.log, s.rows, s.clients[c]);
        if C.AppendCommand(s.log, now, record.partition, record).Ok? {
          ProduceKeeps(s.rows, s.log, now, record);
          PlacesStay(s.log, s'.log, s.rows, s.rows, s.clients);
        }
      case Commit(c, partition, offset) =>
        CommitLogKeeps(s.rows, s.log, partition, offset);
        PlacesStay(s.log, s'.log, s.rows, s.rows, s.clients);
    }
  }

  lemma CommitLogKeeps(rows: Index, log: C.CommandLog, partition: Partition, offset: int)
    requires C.Valid(log) && Trails(rows, log)
    ensures
      var log' := log.(committed := C.Commit(log.committed, partition, Greater(offset, 0)));
      C.Valid(log') && Trails(rows, log') && Grows(log, log') && offset <= log'.Committed(partition.Normalize())
  {
    var log' := log.(committed := C.Commit(log.committed, partition, Greater(offset, 0)));
    C.DenseOf(log, partition.Normalize());
    assert forall p :: p in rows ==> RowSound(log, p, rows[p]);
  }

  lemma NoteKeeps(s: State, s': State, step: Step)
    requires Inv(s) && Take(s, step) == Some(s') && !step.Append? && !step.Commit?
    ensures Inv(s')
  {
    hide C.Valid, Trails, RecordTail, RecordCommit, C.AppendCommand, After, PartitionOf;
    match step {
      case Announce(c, record) =>
        TailKeeps(s.rows, s.log, record.partition, 0);
      case NoteTail(c) =>
        assert PlaceSound(s.log, s.rows, s.clients[c]);
        TailKeeps(s.rows, s.log, s.clients[c].partition, s.clients[c].offset);
      case Fetch(c, partition, after, limit) =>
        FetchSound(s.log, s.rows, partition.Normalize(), after, limit);
      case NoteFetched(c) =>
        assert PlaceSound(s.log, s.rows, s.clients[c]);
        if s.clients[c].messages != [] {
          var m := s.clients[c].messages[0].data;
          TailKeeps(s.rows, s.log, m.partition, m.offset);
          assert PlaceSound(s.log, s'.rows, Fetched(s.clients[c].messages[1..]));
        }
      case NoteCommit(c) =>
        assert PlaceSound(s.log, s.rows, s.clients[c]);
        CommitKeeps(s.rows, s.log, s.clients[c].partition, s.clients[c].offset);
      case Crash(_) =>
    }
    PlacesStay(s.log, s.log, s.rows, s'.rows, s.clients);
  }

  /** What each note does to the rows, and that nothing else touches them. */
  lemma NotesRaise(s: State, s': State, step: Step)
    requires Inv(s) && Take(s, step) == Some(s')
    ensures step.Announce? ==> RowRaised(s.rows, s'.rows, step.record.partition.Normalize(), 0, 0)
    ensures step.NoteTail? ==> RowRaised(s.rows, s'.rows, s.clients[step.c].partition.Normalize(), s.clients[step.c].offset, 0)
    ensures step.NoteCommit? ==>
              RowRaised(s.rows, s'.rows, s.clients[step.c].partition.Normalize(), 0, s.clients[step.c].offset)
    ensures step.NoteFetched? && s.clients[step.c].messages != [] ==>
              var m := s.clients[step.c].messages[0].data;
              RowRaised(s.rows, s'.rows, m.partition.Normalize(), m.offset, 0)
    ensures step.Append? || step.Fetch? || step.Commit? || step.Crash? ==> s'.rows == s.rows
  {
    hide C.Valid, Trails, RecordTail, RecordCommit, C.AppendCommand, After, PartitionOf, RowRaised, PlaceSound;
    match step {
      case Announce(c, record) => TailRaises(s.rows, s.log, record.partition, 0);
      case NoteTail(c) => TailRaises(s.rows, s.log, s.clients[c].partition, s.clients[c].offset);
      case NoteCommit(c) => CommitRaises(s.rows, s.log, s.clients[c].partition, s.clients[c].offset);
      case NoteFetched(c) =>
        if s.clients[c].messages != [] {
          var m := s.clients[c].messages[0].data;
          TailRaises(s.rows, s.log, m.partition, m.offset);
        }
      case _ =>
    }
  }

  lemma FetchSound(log: C.CommandLog, rows: Index, p: Partition, after: int, limit: int)
    requires C.Valid(log)
    ensures PlaceSound(log, rows, Fetched(Limit(After(PartitionOf(log.stream, p), after), limit)))
  {
    hide C.Valid, After, PartitionOf;
    var all := PartitionOf(log.stream, p);
    var messages := Limit(After(all, after), limit);
    forall i | 0 <= i < |messages| ensures messages[i].data.offset <= log.Tail(messages[i].data.partition.Normalize()) {
      assert messages[i] == After(all, after)[i];
      AfterMember(all, after, messages[i]);
      var k :| 0 <= k < |all| && all[k] == messages[i];
      PartitionOfSound(log.stream, p, k);
      StoredOffset(log, messages[i]);
    }
  }

  lemma {:induction false} RunKeeps(states: seq<State>, steps: seq<Step>, i: nat)
    requires Run(states, steps) && i < |states|
    ensures Inv(states[i])
  {
    hide Take, Inv;
    if i == 0 {
      InitHolds();
    } else {
      RunKeeps(states, steps, i - 1);
      if steps[i - 1].Append? || steps[i - 1].Commit? {
        LogStepKeeps(states[i - 1], states[i], steps[i - 1]);
      } else {
        NoteKeeps(states[i - 1], states[i], steps[i - 1]);
      }
    }
  }

  lemma InitHolds()
    ensures Inv(Init)
  {
  }

  /** Over every run: every partition with a command is listed, and what is listed
      is ordered committed <= tail <= real tail and committed <= really committed. */
  lemma IndexTrailsLog(states: seq<State>, steps: seq<Step>, i: nat, p: Partition)
    requires Run(states, steps) && i < |states|
    ensures states[i].log.Tail(p) > 0 ==> p in states[i].rows
    ensures p in states[i].rows ==>
              var row := Listed(states[i].rows[p]);
              && 0 <= row.committed <= row.tail <= states[i].log.Tail(p)
              && row.committed <= states[i].log.Committed(p)
  {
    hide Take, Run;
    RunKeeps(states, steps, i);
    var s := states[i];
    if p in s.rows {
      assert RowSound(s.log, p, s.rows[p]);
    }
    if s.log.Tail(p) > 0 {
      PartitionOfSound(s.log.stream, p, 0);
      var m := PartitionOf(s.log.stream, p)[0];
      var k :| 0 <= k < |s.log.stream| && s.log.stream[k] == m;
      assert s.log.stream[k].partition in s.rows;
    }
  }

  /** So a drain from the indexed offset is handed the command right after it and
      everything up to the limit, and never starts past an uncommitted command. */
  lemma DrainSkipsNothing(states: seq<State>, steps: seq<Step>, i: nat, p: Partition, limit: int)
    requires Run(states, steps) && i < |states|
    ensures
      var log, from := states[i].log, CommittedOffset(states[i].rows, p);
      var all := PartitionOf(log.stream, p);
      && 0 <= from <= |all| && from <= log.Committed(p)
      && (forall k :: 0 <= k < |all| && all[k].offset > log.Committed(p) ==> all[k].offset > from)
      && Limit(After(all, from), limit) == Limit(all[from..], limit)
  {
    hide Take, Run, After, PartitionOf;
    RunKeeps(states, steps, i);
    IndexTrailsLog(states, steps, i, p);
    var log, from := states[i].log, CommittedOffset(states[i].rows, p);
    C.DenseOf(log, p);
    assert Dense(PartitionOf(log.stream, p));
    AfterFrom(PartitionOf(log.stream, p), from, from);
  }
}
