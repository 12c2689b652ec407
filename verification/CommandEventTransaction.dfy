/** One transaction: append the decided events, then advance the command offsets.
    The reference is running `Append` per record and `Commit` per command. */
module CommandEventTransaction {
  import opened LogModel
  import opened BrokerEventLog
  import C = BrokerCommandLog

  datatype CommitPosition = CommitPosition(partition: Partition, offset: int, source: C.SourcePosition) {
    predicate Valid() {
      offset > 0 && source.ValidFor(partition, offset)
    }
  }

  /** A requested record, before the log assigns its offset. */
  function Request(r: EventRecord): EventRecord {
    r.(partition := r.partition.Normalize(), offset := 0)
  }

  ghost predicate Stored(log: EventLog, id: EventId) {
    FindId(log.stream, id).Some?
  }

  datatype Batch = Batch(log: EventLog, messages: seq<EventMessage>)

  /** The simple form: one append after another. */
  function AppendAll(log: EventLog, records: seq<EventRecord>): (r: Result<Batch>)
    ensures r.Ok? ==> |r.value.messages| == |records|
  {
    if records == [] then Ok(Batch(log, []))
    else AppendOne(AppendAll(log, records[..|records| - 1]), records[|records| - 1])
  }

  function AppendOne(init: Result<Batch>, r: EventRecord): Result<Batch> {
    if init.Err? then init
    else
      match Append(init.value.log, r.partition, Request(r))
      case Err(e) => Err(e)
      case Ok(a) => Ok(Batch(a.log, init.value.messages + [a.message]))
  }

  function CommitAll(committed: map<Partition, int>, commands: seq<CommitPosition>): map<Partition, int> {
    if commands == [] then committed
    else
      var n := |commands| - 1;
      C.Commit(CommitAll(committed, commands[..n]), commands[n].partition, commands[n].offset)
  }

  ghost predicate RecordAccepted(log: EventLog, r: EventRecord) {
    && r.id != NoId && r.ts > 0
    && match FindId(log.stream, r.id)
       case Some(m) => m.partition == r.partition.Normalize() && SameIdentity(m.data, Request(r))
       case None => Encodable(r)
  }

  /** One record of a transaction is accepted exactly when it has an id and a time and is
      either stored already with the same content or complete. */
  lemma AcceptedMeans(log: EventLog, r: EventRecord)
    requires Valid(log)
    ensures RecordAccepted(log, r) <==>
              && r.id != NoId && r.ts > 0
              && (forall i :: 0 <= i < |log.stream| && log.stream[i].data.id == r.id ==>
                    var e := log.stream[i].data;
                    && e.kind == r.kind && e.compatibilitySeq == r.compatibilitySeq && e.scopes == r.scopes
                    && e.payload == r.payload && e.ts == r.ts && e.partition == r.partition.Normalize())
              && ((forall i :: 0 <= i < |log.stream| ==> log.stream[i].data.id != r.id) ==> r.kind != "" && r.payload != "")
  {
    if r.id != NoId {
      if i :| 0 <= i < |log.stream| && log.stream[i].data.id == r.id {
        FindIdUnique(log, i);
        assert WellPlaced(log, log.stream[i]);
      }
    }
  }

  /** A command's offset is accepted from 1 up to the tail of its partition, with no source
      or one that fits. */
  lemma PositionMeans(commands: C.CommandLog, c: CommitPosition)
    ensures CommandAccepted(commands, c) <==>
              1 <= c.offset <= commands.Tail(c.partition.Normalize())
              && (c.source == C.NoSource || c.source.ValidFor(c.partition, c.offset))
  {
  }

  /** Two new events of one transaction never share an id. */
  ghost predicate NewIdsDiffer(log: EventLog, records: seq<EventRecord>) {
    forall i, j :: 0 <= i < j < |records| && records[i].id == records[j].id ==> Stored(log, records[i].id)
  }

  ghost predicate RecordsAccepted(log: EventLog, records: seq<EventRecord>) {
    && (forall i :: 0 <= i < |records| ==> RecordAccepted(log, records[i]))
    && NewIdsDiffer(log, records)
  }

  predicate CommandAccepted(commands: C.CommandLog, c: CommitPosition) {
    c.Valid() && c.offset <= commands.Tail(c.partition.Normalize())
  }

  /** Exactly the transactions that take effect. */
  ghost predicate Accepts(commands: C.CommandLog, events: EventLog,
                          positions: seq<CommitPosition>, records: seq<EventRecord>)
  {
    && (forall i :: 0 <= i < |positions| ==> CommandAccepted(commands, positions[i]))
    && RecordsAccepted(events, records)
  }

  /** What a request is answered with: the stored message of its id, or a message
      past everything stored before. */
  ghost predicate Answers(before: EventLog, after: EventLog, r: EventRecord, m: EventMessage) {
    && FindId(after.stream, r.id) == Some(m)
    && SameIdentity(m.data, Request(r))
    && (if Stored(before, r.id) then FindId(before.stream, r.id) == Some(m)
        else |before.stream| < m.streamSeq <= |after.stream|)
  }

  ghost predicate NewInOrder(log: EventLog, records: seq<EventRecord>, messages: seq<EventMessage>)
    requires |messages| == |records|
  {
    forall i, j :: 0 <= i < j < |records| && !Stored(log, records[i].id) && !Stored(log, records[j].id) ==>
      messages[i].streamSeq < messages[j].streamSeq
  }

  ghost predicate Requested(records: seq<EventRecord>, id: EventId) {
    exists i :: 0 <= i < |records| && records[i].id == id
  }

  /** What appending accepted records does: every request is answered, new events
      follow in request order, and nothing else is stored. */
  ghost predicate Describes(log: EventLog, records: seq<EventRecord>, b: Batch) {
    && Valid(b.log) && |b.messages| == |records| && log.stream <= b.log.stream
    && (forall i :: 0 <= i < |records| ==> Answers(log, b.log, records[i], b.messages[i]))
    && NewInOrder(log, records, b.messages)
    && (forall k :: |log.stream| <= k < |b.log.stream| ==> Requested(records, b.log.stream[k].data.id))
  }

  /** Growing the log keeps what an id names. */
  lemma FindIdExtends(small: EventLog, big: EventLog, id: EventId)
    requires Valid(big) && small.stream <= big.stream && id != NoId && FindId(small.stream, id).Some?
    ensures FindId(big.stream, id) == FindId(small.stream, id)
  {
    var m := FindId(small.stream, id).value;
    var i :| 0 <= i < |small.stream| && small.stream[i] == m;
    assert big.stream[i] == m;
    FindIdUnique(big, i);
  }

  lemma {:induction false} AppendAllDescribes(log: EventLog, records: seq<EventRecord>)
    requires Valid(log) && RecordsAccepted(log, records)
    ensures AppendAll(log, records).Ok?
    ensures Describes(log, records, AppendAll(log, records).value)
  {
    if records != [] {
      var n := |records| - 1;
      AcceptedPrefix(log, records, n);
      AppendAllDescribes(log, records[..n]);
      AppendOneDescribes(log, records, AppendAll(log, records[..n]).value);
    }
  }

  lemma AcceptedPrefix(log: EventLog, records: seq<EventRecord>, n: nat)
    requires RecordsAccepted(log, records) && n <= |records|
    ensures RecordsAccepted(log, records[..n])
  {
    forall i, j | 0 <= i < j < n && records[..n][i].id == records[..n][j].id
      ensures Stored(log, records[..n][i].id)
    {
      assert records[i].id == records[j].id;
    }
  }

  lemma AppendOneDescribes(log: EventLog, records: seq<EventRecord>, init: Batch)
    requires Valid(log) && RecordsAccepted(log, records) && records != []
    requires AppendAll(log, records[..|records| - 1]) == Ok(init)
    requires Describes(log, records[..|records| - 1], init)
    ensures AppendAll(log, records).Ok? && Describes(log, records, AppendAll(log, records).value)
  {
    hide Valid, FindId, Describes, Answers, RecordAccepted, Push, Append;
    var r := records[|records| - 1];
    DescribesLog(log, records[..|records| - 1], init);
    assert RecordAccepted(log, r);
    if Stored(log, r.id) {
      AppendStoredOne(log, init.log, r);
      DescribesLast(log, records, init, Batch(init.log, init.messages + [FindId(log.stream, r.id).value]));
    } else {
      NotYetAppended(log, records, init);
      AppendNewOne(log, init.log, r);
      var m := NewMessage(init.log, Request(r));
      DescribesLast(log, records, init, Batch(Push(init.log, m), init.messages + [m]));
    }
  }

  lemma DescribesLog(log: EventLog, records: seq<EventRecord>, b: Batch)
    requires Describes(log, records, b)
    ensures Valid(b.log) && log.stream <= b.log.stream && |b.messages| == |records|
  {
  }

  lemma AppendStoredOne(log: EventLog, current: EventLog, r: EventRecord)
    requires Valid(current) && log.stream <= current.stream && RecordAccepted(log, r) && Stored(log, r.id)
    ensures Append(current, r.partition, Request(r)) == Ok(Appended(current, FindId(log.stream, r.id).value))
    ensures Answers(log, current, r, FindId(log.stream, r.id).value)
  {
    hide Valid;
    FindIdExtends(log, current, r.id);
  }

  lemma AppendNewOne(log: EventLog, current: EventLog, r: EventRecord)
    requires Valid(current) && log.stream <= current.stream && RecordAccepted(log, r) && !Stored(log, r.id)
    requires FindId(current.stream, r.id).None?
    ensures
      var m := NewMessage(current, Request(r));
      && Append(current, r.partition, Request(r)) == Ok(Appended(Push(current, m), m))
      && Answers(log, Push(current, m), r, m) && Valid(Push(current, m))
      && Push(current, m).stream == current.stream + [m] && m.streamSeq == |current.stream| + 1
  {
    hide Valid;
    PushValid(current, Request(r));
    FindIdAppend(current.stream, NewMessage(current, Request(r)), r.id);
  }

  ghost predicate OneMore(log: EventLog, records: seq<EventRecord>, init: Batch, b: Batch) {
    && records != [] && Valid(b.log) && |b.messages| == |records|
    && init.messages == b.messages[..|records| - 1]
    && Answers(log, b.log, records[|records| - 1], b.messages[|records| - 1])
    && (if Stored(log, records[|records| - 1].id) then b.log == init.log
        else b.log.stream == init.log.stream + [b.messages[|records| - 1]]
             && b.messages[|records| - 1].streamSeq == |b.log.stream|)
  }

  lemma AnswersKept(log: EventLog, small: EventLog, big: EventLog, r: EventRecord, m: EventMessage)
    requires Answers(log, small, r, m) && Valid(big) && small.stream <= big.stream && r.id != NoId
    ensures Answers(log, big, r, m)
  {
    FindIdExtends(small, big, r.id);
  }

  lemma OrderKept(log: EventLog, records: seq<EventRecord>, init: Batch, b: Batch)
    requires OneMore(log, records, init, b) && Describes(log, records[..|records| - 1], init)
    ensures NewInOrder(log, records, b.messages)
  {
    hide Valid, FindId, Answers, Stored, Requested;
    var n := |records| - 1;
    forall i, j | 0 <= i < j < |records| && !Stored(log, records[i].id) && !Stored(log, records[j].id)
      ensures b.messages[i].streamSeq < b.messages[j].streamSeq
    {
      assert records[..n][i] == records[i] && init.messages[i] == b.messages[i];
      if j < n {
        assert records[..n][j] == records[j] && init.messages[j] == b.messages[j];
        assert NewInOrder(log, records[..n], init.messages);
      } else {
        assert Answers(log, init.log, records[..n][i], init.messages[i]);
        NewWithin(log, init.log, records[i], init.messages[i]);
      }
    }
  }

  lemma NewWithin(before: EventLog, after: EventLog, r: EventRecord, m: EventMessage)
    requires Answers(before, after, r, m) && !Stored(before, r.id)
    ensures m.streamSeq <= |after.stream|
  {
  }

  lemma CoverKept(log: EventLog, records: seq<EventRecord>, init: Batch, b: Batch, k: nat)
    requires OneMore(log, records, init, b) && Describes(log, records[..|records| - 1], init)
    requires |log.stream| <= k < |b.log.stream|
    ensures Requested(records, b.log.stream[k].data.id)
  {
    hide Valid;
    var n := |records| - 1;
    if k < |init.log.stream| {
      assert Requested(records[..n], init.log.stream[k].data.id);
      var i :| 0 <= i < n && records[..n][i].id == init.log.stream[k].data.id;
      assert records[i].id == b.log.stream[k].data.id;
    } else {
      assert records[n].id == b.log.stream[k].data.id;
    }
  }

  lemma DescribesLast(log: EventLog, records: seq<EventRecord>, init: Batch, b: Batch)
    requires RecordsAccepted(log, records) && OneMore(log, records, init, b)
    requires Describes(log, records[..|records| - 1], init)
    ensures Describes(log, records, b)
  {
    hide Valid, FindId;
    var n := |records| - 1;
    forall i | 0 <= i < n ensures Answers(log, b.log, records[i], b.messages[i]) {
      assert Answers(log, init.log, records[..n][i], init.messages[i]);
      assert RecordAccepted(log, records[i]);
      AnswersKept(log, init.log, b.log, records[i], b.messages[i]);
    }
    OrderKept(log, records, init, b);
    forall k | |log.stream| <= k < |b.log.stream| ensures Requested(records, b.log.stream[k].data.id) {
      CoverKept(log, records, init, b, k);
    }
  }

  lemma NotYetAppended(log: EventLog, records: seq<EventRecord>, init: Batch)
    requires RecordsAccepted(log, records) && records != []
    requires Describes(log, records[..|records| - 1], init)
    requires !Stored(log, records[|records| - 1].id)
    ensures FindId(init.log.stream, records[|records| - 1].id).None?
  {
    hide Valid;
    var n := |records| - 1;
    forall k | 0 <= k < |init.log.stream| ensures init.log.stream[k].data.id != records[n].id {
      if k >= |log.stream| {
        assert Requested(records[..n], init.log.stream[k].data.id);
        var i :| 0 <= i < n && records[..n][i].id == init.log.stream[k].data.id;
        assert records[..n][i] == records[i];
      } else {
        assert init.log.stream[k] == log.stream[k];
      }
    }
  }

  lemma {:induction false} AppendAllStored(log: EventLog, records: seq<EventRecord>)
    requires Valid(log)
    requires forall i :: 0 <= i < |records| ==> RecordAccepted(log, records[i]) && Stored(log, records[i].id)
    ensures AppendAll(log, records).Ok? && AppendAll(log, records).value.log == log
    ensures forall i :: 0 <= i < |records| ==>
              Some(AppendAll(log, records).value.messages[i]) == FindId(log.stream, records[i].id)
  {
    hide Valid, FindId, RecordAccepted, Append;
    if records != [] {
      var n := |records| - 1;
      assert forall i :: 0 <= i < n ==> records[..n][i] == records[i];
      AppendAllStored(log, records[..n]);
      AppendStoredOne(log, log, records[n]);
    }
  }

  /** Repeating a transaction appends nothing and returns the same messages. */
  lemma RepeatAppends(log: EventLog, records: seq<EventRecord>)
    requires Valid(log) && RecordsAccepted(log, records)
    ensures
      var r := AppendAll(log, records);
      r.Ok? && RecordsAccepted(r.value.log, records) && AppendAll(r.value.log, records) == r
  {
    hide Valid;
    AppendAllDescribes(log, records);
    var b := AppendAll(log, records).value;
    forall i | 0 <= i < |records|
      ensures RecordAccepted(b.log, records[i]) && FindId(b.log.stream, records[i].id) == Some(b.messages[i])
    {
      assert Answers(log, b.log, records[i], b.messages[i]);
      assert RecordAccepted(log, records[i]);
      StoredIsPlaced(b.log, records[i].id);
    }
    AppendAllStored(b.log, records);
    assert AppendAll(b.log, records).value.messages == b.messages;
  }

  lemma StoredIsPlaced(log: EventLog, id: EventId)
    requires Valid(log) && FindId(log.stream, id).Some?
    ensures WellPlaced(log, FindId(log.stream, id).value)
    ensures 1 <= FindId(log.stream, id).value.streamSeq <= |log.stream|
    ensures log.stream[FindId(log.stream, id).value.streamSeq - 1] == FindId(log.stream, id).value
  {
    var m := FindId(log.stream, id).value;
    var i :| 0 <= i < |log.stream| && log.stream[i] == m;
    assert log.stream[i].streamSeq == i + 1;
  }

  lemma {:induction false} CommitAllReaches(committed: map<Partition, int>, commands: seq<CommitPosition>, i: nat)
    requires i < |commands|
    ensures commands[i].offset <= OffsetOf(CommitAll(committed, commands), commands[i].partition.Normalize())
  {
    var n := |commands| - 1;
    if i < n {
      CommitAllReaches(committed, commands[..n], i);
    }
  }

  lemma {:induction false} CommitAllIdle(committed: map<Partition, int>, commands: seq<CommitPosition>)
    requires forall i :: 0 <= i < |commands| ==>
              commands[i].offset <= OffsetOf(committed, commands[i].partition.Normalize())
    ensures CommitAll(committed, commands) == committed
  {
    if commands != [] {
      CommitAllIdle(committed, commands[..|commands| - 1]);
    }
  }

  /** Repeating a transaction commits nothing further. */
  lemma RepeatCommits(committed: map<Partition, int>, commands: seq<CommitPosition>)
    ensures CommitAll(CommitAll(committed, commands), commands) == CommitAll(committed, commands)
  {
    forall i | 0 <= i < |commands|
      ensures commands[i].offset <= OffsetOf(CommitAll(committed, commands), commands[i].partition.Normalize())
    {
      CommitAllReaches(committed, commands, i);
    }
    CommitAllIdle(CommitAll(committed, commands), commands);
  }

  function ThenAppend(first: Result<Batch>, records: seq<EventRecord>): Result<Batch> {
    if first.Err? then first
    else
      match AppendAll(first.value.log, records)
      case Err(e) => Err(e)
      case Ok(two) => Ok(Batch(two.log, first.value.messages + two.messages))
  }

  lemma ThenAppendOne(first: Result<Batch>, records: seq<EventRecord>, r: EventRecord)
    ensures ThenAppend(first, records + [r]) == AppendOne(ThenAppend(first, records), r)
  {
    hide Append;
    assert (records + [r])[..|records|] == records;
    if first.Ok? && AppendAll(first.value.log, records + [r]).Ok? {
      var two := AppendAll(first.value.log, records).value;
      var all := AppendAll(first.value.log, records + [r]).value;
      var last := all.messages[|records|];
      assert first.value.messages + (two.messages + [last]) == (first.value.messages + two.messages) + [last];
    }
  }

  /** Appending a batch is appending its parts one after another. */
  lemma {:induction false} AppendAllConcat(log: EventLog, a: seq<EventRecord>, b: seq<EventRecord>)
    ensures AppendAll(log, a + b) == ThenAppend(AppendAll(log, a), b)
  {
    hide AppendOne;
    if b == [] {
      assert a + b == a;
      if AppendAll(log, a).Ok? {
        assert AppendAll(log, a).value.messages + [] == AppendAll(log, a).value.messages;
      }
    } else {
      var n := |b| - 1;
      AppendAllConcat(log, a, b[..n]);
      ThenAppendOne(AppendAll(log, a), b[..n], b[n]);
      assert b[..n] + [b[n]] == b;
      assert (a + b)[..|a + b| - 1] == a + b[..n];
    }
  }

  // ---- The check after the commit -------------------------------------------

  predicate Decodes(m: EventMessage) {
    && m.data.offset > 0 && Encodable(m.data)
    && (m.partition == Partition("", "") || m.partition.Normalize() == m.data.partition.Normalize())
    && (m.offset > 0 ==> m.offset == m.data.offset)
  }

  predicate SameResult(returned: EventRecord, expected: EventRecord) {
    SameIdentity(returned,
                 if expected.compatibilitySeq > 0 then expected
                 else expected.(compatibilitySeq := returned.compatibilitySeq))
  }

  predicate MessageAccepted(allowPartitionOnly: bool, expected: EventRecord, m: EventMessage) {
    Decodes(m) && SameResult(m.data, expected) && (EventSeq(m) > 0 || allowPartitionOnly)
  }

  ghost predicate SeqsIncrease(messages: seq<EventMessage>, n: nat)
    requires n <= |messages|
  {
    forall i, j :: 0 <= i < j < n && EventSeq(messages[i]) > 0 && EventSeq(messages[j]) > 0 ==>
      EventSeq(messages[i]) < EventSeq(messages[j])
  }

  function Place(m: EventMessage): Partition {
    m.data.partition.Normalize()
  }

  ghost predicate OffsetsIncreasePerPartition(messages: seq<EventMessage>, n: nat)
    requires n <= |messages|
  {
    forall i, j :: 0 <= i < j < n && Place(messages[i]) == Place(messages[j]) ==>
      messages[i].data.offset < messages[j].data.offset
  }

  /** What the store demands of the returned messages, once the commit took effect. */
  ghost predicate PostCheck(allowPartitionOnly: bool, records: seq<EventRecord>, messages: seq<EventMessage>) {
    && |messages| == |records|
    && (forall i :: 0 <= i < |records| ==> MessageAccepted(allowPartitionOnly, records[i], messages[i]))
    && SeqsIncrease(messages, |messages|) && OffsetsIncreasePerPartition(messages, |messages|)
  }

  /** The sequence a message carries. */
  ghost predicate Carries(m: EventMessage, s: int) {
    if m.data.compatibilitySeq > 0 then s == m.data.compatibilitySeq else s == m.streamSeq
  }

  /** The answer of one record: the stored event is the one asked for, with the compatibility
      sequence that was asked for if there was one, its place is that of the message, and it
      carries a sequence unless sequences may be missing. */
  ghost predicate AnsweredBy(allowPartitionOnly: bool, r: EventRecord, m: EventMessage) {
    && m.data.id == r.id && m.data.kind == r.kind && m.data.scopes == r.scopes && m.data.payload == r.payload
    && m.data.ts == r.ts && m.data.partition == r.partition && m.data.kind != "" && m.data.payload != ""
    && (r.compatibilitySeq > 0 ==> m.data.compatibilitySeq == r.compatibilitySeq)
    && m.data.offset > 0 && (m.offset > 0 ==> m.offset == m.data.offset)
    && (m.partition == Partition("", "") || m.partition.Normalize() == m.data.partition.Normalize())
    && (m.data.compatibilitySeq > 0 || m.streamSeq > 0 || allowPartitionOnly)
  }

  /** The check passes exactly when there is one answer for each record, the sequences that
      are there increase, and so do the offsets inside each partition. */
  lemma PostCheckMeans(allowPartitionOnly: bool, records: seq<EventRecord>, messages: seq<EventMessage>)
    ensures PostCheck(allowPartitionOnly, records, messages) <==>
              && |messages| == |records|
              && (forall i :: 0 <= i < |records| ==> AnsweredBy(allowPartitionOnly, records[i], messages[i]))
              && (forall i, j, s, t ::
                    0 <= i < j < |messages| && s > 0 && t > 0 && Carries(messages[i], s) && Carries(messages[j], t) ==>
                      s < t)
              && (forall i, j :: 0 <= i < j < |messages|
                                 && messages[i].data.partition.Normalize() == messages[j].data.partition.Normalize() ==>
                    messages[i].data.offset < messages[j].data.offset)
  {
    assert forall m :: Carries(m, EventSeq(m));
    if |messages| == |records| {
      forall i | 0 <= i < |records|
        ensures MessageAccepted(allowPartitionOnly, records[i], messages[i]) <==>
                  AnsweredBy(allowPartitionOnly, records[i], messages[i])
      {
      }
    }
  }

  lemma AcceptedOffset(allow: bool, r: EventRecord, m: EventMessage)
    requires MessageAccepted(allow, r, m)
    ensures m.data.offset > 0
  {
  }

  /** The loop's memory of the first k messages: the highest scalar sequence, zero
      if none, and the highest offset of each partition met. */
  ghost predicate SeqTracked(messages: seq<EventMessage>, k: nat, lastSeq: int)
    requires k <= |messages|
  {
    && (forall i :: 0 <= i < k ==> EventSeq(messages[i]) <= lastSeq)
    && (lastSeq == 0 || exists i :: 0 <= i < k && EventSeq(messages[i]) == lastSeq > 0)
  }

  ghost predicate OffsetsTracked(messages: seq<EventMessage>, k: nat, offsets: map<Partition, int>)
    requires k <= |messages|
  {
    && (forall i :: 0 <= i < k ==> Place(messages[i]) in offsets && messages[i].data.offset <= offsets[Place(messages[i])])
    && (forall p :: p in offsets ==> exists i :: 0 <= i < k && Place(messages[i]) == p && messages[i].data.offset == offsets[p])
  }

  lemma SeqStep(messages: seq<EventMessage>, k: nat, lastSeq: int)
    requires k < |messages| && SeqTracked(messages, k, lastSeq) && SeqsIncrease(messages, k)
    ensures
      var s := EventSeq(messages[k]);
      if s > 0 && lastSeq > 0 && s <= lastSeq then !SeqsIncrease(messages, |messages|)
      else SeqsIncrease(messages, k + 1) && SeqTracked(messages, k + 1, if s > 0 then s else lastSeq)
  {
    hide EventSeq;
    var s := EventSeq(messages[k]);
    if lastSeq > 0 && s <= lastSeq {
      var i :| 0 <= i < k && EventSeq(messages[i]) == lastSeq;
    }
  }

  lemma OffsetStep(messages: seq<EventMessage>, k: nat, offsets: map<Partition, int>)
    requires k < |messages| && OffsetsTracked(messages, k, offsets) && OffsetsIncreasePerPartition(messages, k)
    requires forall i :: 0 <= i <= k ==> messages[i].data.offset > 0
    ensures
      var known := OffsetOf(offsets, Place(messages[k]));
      if known > 0 && messages[k].data.offset <= known then !OffsetsIncreasePerPartition(messages, |messages|)
      else OffsetsIncreasePerPartition(messages, k + 1)
           && OffsetsTracked(messages, k + 1, offsets[Place(messages[k]) := messages[k].data.offset])
  {
    hide Place;
    var p := Place(messages[k]);
    if p in offsets {
      var i :| 0 <= i < k && Place(messages[i]) == p && messages[i].data.offset == offsets[p];
      assert messages[i].data.offset > 0;
      if messages[k].data.offset <= offsets[p] {
        assert Place(messages[i]) == Place(messages[k]);
      } else {
        OffsetGoesOn(messages, k, offsets);
      }
    } else {
      OffsetGoesOn(messages, k, offsets);
    }
  }

  lemma OffsetGoesOn(messages: seq<EventMessage>, k: nat, offsets: map<Partition, int>)
    requires k < |messages| && OffsetsTracked(messages, k, offsets) && OffsetsIncreasePerPartition(messages, k)
    requires Place(messages[k]) in offsets ==> messages[k].data.offset > offsets[Place(messages[k])]
    ensures OffsetsIncreasePerPartition(messages, k + 1)
    ensures OffsetsTracked(messages, k + 1, offsets[Place(messages[k]) := messages[k].data.offset])
  {
    hide Place;
    IncreaseGoesOn(messages, k, offsets);
    var p := Place(messages[k]);
    var offsets' := offsets[p := messages[k].data.offset];
    forall i | 0 <= i < k
      ensures Place(messages[i]) in offsets' && messages[i].data.offset <= offsets'[Place(messages[i])]
    {
      assert Place(messages[i]) in offsets;
    }
    forall q | q in offsets'
      ensures exists i :: 0 <= i < k + 1 && Place(messages[i]) == q && messages[i].data.offset == offsets'[q]
    {
      TrackedGoesOn(messages, k, offsets, q);
    }
  }

  lemma TrackedGoesOn(messages: seq<EventMessage>, k: nat, offsets: map<Partition, int>, q: Partition)
    requires k < |messages| && OffsetsTracked(messages, k, offsets) && (q in offsets || q == Place(messages[k]))
    ensures
      var offsets' := offsets[Place(messages[k]) := messages[k].data.offset];
      exists i :: 0 <= i < k + 1 && Place(messages[i]) == q && messages[i].data.offset == offsets'[q]
  {
    hide Place;
    if q == Place(messages[k]) {
      assert Place(messages[k]) == q;
    } else {
      var i :| 0 <= i < k && Place(messages[i]) == q && messages[i].data.offset == offsets[q];
      assert Place(messages[i]) == q;
    }
  }

  lemma IncreaseGoesOn(messages: seq<EventMessage>, k: nat, offsets: map<Partition, int>)
    requires k < |messages| && OffsetsTracked(messages, k, offsets) && OffsetsIncreasePerPartition(messages, k)
    requires Place(messages[k]) in offsets ==> messages[k].data.offset > offsets[Place(messages[k])]
    ensures OffsetsIncreasePerPartition(messages, k + 1)
  {
    hide Place;
    forall i, j | 0 <= i < j < k + 1 && Place(messages[i]) == Place(messages[j])
      ensures messages[i].data.offset < messages[j].data.offset
    {
      assert Place(messages[i]) in offsets && messages[i].data.offset <= offsets[Place(messages[i])];
    }
  }

  method ValidateMessages(allowPartitionOnly: bool, records: seq<EventRecord>,
                          messages: seq<EventMessage>) returns (ok: bool)
    ensures ok <==> PostCheck(allowPartitionOnly, records, messages)
  {
    hide SeqsIncrease, OffsetsIncreasePerPartition, EventSeq, Place, MessageAccepted, SeqTracked, OffsetsTracked;
    if |messages| != |records| {
      return false;
    }
    var lastSeq := 0;
    var partitionOffsets: map<Partition, int> := map[];
    var k := 0;
    EmptyScan(messages);
    while k < |messages|
      invariant 0 <= k <= |messages|
      invariant forall i :: 0 <= i < k ==> MessageAccepted(allowPartitionOnly, records[i], messages[i])
      invariant SeqsIncrease(messages, k) && SeqTracked(messages, k, lastSeq)
      invariant OffsetsIncreasePerPartition(messages, k) && OffsetsTracked(messages, k, partitionOffsets)
    {
      var m := messages[k];
      if !MessageAccepted(allowPartitionOnly, records[k], m) {
        return false;
      }
      SeqStep(messages, k, lastSeq);
      if EventSeq(m) > 0 && lastSeq > 0 && EventSeq(m) <= lastSeq {
        return false;
      }
      if EventSeq(m) > 0 {
        lastSeq := EventSeq(m);
      }
      forall i | 0 <= i <= k ensures messages[i].data.offset > 0 {
        AcceptedOffset(allowPartitionOnly, records[i], messages[i]);
      }
      OffsetStep(messages, k, partitionOffsets);
      var lastOffset := OffsetOf(partitionOffsets, Place(m));
      if lastOffset > 0 && m.data.offset <= lastOffset {
        return false;
      }
      partitionOffsets := partitionOffsets[Place(m) := m.data.offset];
      k := k + 1;
    }
    return true;
  }

  lemma EmptyScan(messages: seq<EventMessage>)
    ensures SeqsIncrease(messages, 0) && SeqTracked(messages, 0, 0)
    ensures OffsetsIncreasePerPartition(messages, 0) && OffsetsTracked(messages, 0, map[])
  {
  }

  ghost predicate DistinctIds(records: seq<EventRecord>) {
    forall i, j :: 0 <= i < j < |records| ==> records[i].id != records[j].id
  }

  ghost predicate StoredInOrder(log: EventLog, records: seq<EventRecord>) {
    && (forall i :: 0 <= i < |records| ==> Stored(log, records[i].id))
    && (forall i, j :: 0 <= i < j < |records| ==>
          FindId(log.stream, records[i].id).value.streamSeq < FindId(log.stream, records[j].id).value.streamSeq)
  }

  /** The transactions that survive the check: stored events in stream order,
      then new ones. */
  ghost predicate SplitsAt(log: EventLog, records: seq<EventRecord>, k: nat) {
    && k <= |records| && StoredInOrder(log, records[..k])
    && forall i :: k <= i < |records| ==> !Stored(log, records[i].id)
  }

  ghost predicate StoredThenNew(log: EventLog, records: seq<EventRecord>) {
    exists k: nat :: SplitsAt(log, records, k)
  }

  /** Records as the store sends them: normalized, with no scalar sequence of
      their own (native decisions never set one). */
  ghost predicate StoreForm(records: seq<EventRecord>) {
    && (forall i :: 0 <= i < |records| ==> records[i].partition.Normal() && records[i].compatibilitySeq == 0)
    && DistinctIds(records)
  }

  // ---- One step of the plan ---------------------------------------------------

  /** The log after the first i records. */
  ghost function Reached(log: EventLog, records: seq<EventRecord>, i: nat): (b: Batch)
    requires Valid(log) && RecordsAccepted(log, records) && i <= |records|
    ensures AppendAll(log, records[..i]) == Ok(b) && Valid(b.log) && log.stream <= b.log.stream
  {
    AcceptedPrefix(log, records, i);
    AppendAllDescribes(log, records[..i]);
    AppendAll(log, records[..i]).value
  }

  lemma ReachedNone(log: EventLog, records: seq<EventRecord>)
    requires Valid(log) && RecordsAccepted(log, records)
    ensures Reached(log, records, 0) == Batch(log, [])
  {
    assert records[..0] == [];
  }

  /** Each record either changes nothing or pushes the next message. */
  lemma ReachedStep(log: EventLog, records: seq<EventRecord>, i: nat)
    requires Valid(log) && RecordsAccepted(log, records) && i < |records|
    ensures
      var b, b', r := Reached(log, records, i), Reached(log, records, i + 1), records[i];
      if Stored(log, r.id) then
        b' == Batch(b.log, b.messages + [FindId(log.stream, r.id).value])
      else
        var m := NewMessage(b.log, Request(r));
        FindId(b.log.stream, r.id).None? && b' == Batch(Push(b.log, m), b.messages + [m])
  {
    hide Valid, FindId, Append, Describes, Answers, RecordAccepted, Push;
    var b, r := Reached(log, records, i), records[i];
    var prefix := records[..i + 1];
    assert prefix[..|prefix| - 1] == records[..i];
    AcceptedPrefix(log, records, i);
    AcceptedPrefix(log, records, i + 1);
    AppendAllDescribes(log, records[..i]);
    if Stored(log, r.id) {
      AppendStoredOne(log, b.log, r);
    } else {
      NotYetAppended(log, prefix, b);
      AppendNewOne(log, b.log, r);
    }
  }

  /** Messages already planned do not change as the plan grows. */
  lemma ReachedMessage(log: EventLog, records: seq<EventRecord>, i: nat)
    requires Valid(log) && RecordsAccepted(log, records) && i < |records| && AppendAll(log, records).Ok?
    ensures AppendAll(log, records).value.messages[i] == Reached(log, records, i + 1).messages[i]
  {
    hide Valid, RecordsAccepted, AppendAll, Reached;
    AppendAllConcat(log, records[..i + 1], records[i + 1..]);
    assert records[..i + 1] + records[i + 1..] == records;
  }

  /** A further record is accepted or not by itself, unless it repeats a new id. */
  lemma AcceptedSnoc(log: EventLog, records: seq<EventRecord>, k: nat)
    requires k < |records| && RecordsAccepted(log, records[..k])
    ensures RecordsAccepted(log, records[..k + 1]) <==>
              && RecordAccepted(log, records[k])
              && (Stored(log, records[k].id) || !Requested(records[..k], records[k].id))
  {
    hide RecordAccepted, FindId;
    var prefix := records[..k + 1];
    assert prefix == records[..k] + [records[k]];
    if !Stored(log, records[k].id) && Requested(records[..k], records[k].id) {
      var i :| 0 <= i < k && records[..k][i].id == records[k].id;
      assert prefix[i].id == prefix[k].id;
    }
    if RecordAccepted(log, records[k]) && (Stored(log, records[k].id) || !Requested(records[..k], records[k].id)) {
      forall i, j | 0 <= i < j < k + 1 && prefix[i].id == prefix[j].id ensures Stored(log, prefix[i].id) {
        assert prefix[i] == records[..k][i];
        if j < k {
          assert prefix[j] == records[..k][j];
        }
      }
    }
  }
}
