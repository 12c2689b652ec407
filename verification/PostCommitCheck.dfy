/** Exactly which accepted requests survive the check that the store makes on the
    returned messages after the commit took effect. */
module PostCommitCheck {
  import opened LogModel
  import opened BrokerEventLog
  import opened CommandEventTransaction

  /** Records as the store sends them: normalized partitions, distinct ids. */
  ghost predicate Sent(records: seq<EventRecord>) {
    (forall i :: 0 <= i < |records| ==> records[i].partition.Normal()) && DistinctIds(records)
  }

  /** b is new, or both are stored and a comes first in the stream. */
  ghost predicate Precedes(log: EventLog, a: EventId, b: EventId) {
    Stored(log, b) ==>
      Stored(log, a) && FindId(log.stream, a).value.streamSeq < FindId(log.stream, b).value.streamSeq
  }

  ghost function NewCount(log: EventLog, records: seq<EventRecord>): nat {
    if records == [] then 0
    else NewCount(log, records[..|records| - 1]) + if Stored(log, records[|records| - 1].id) then 0 else 1
  }

  /** The place in the stream that a request names or will take. */
  ghost function StreamPlace(log: EventLog, records: seq<EventRecord>, i: nat): int
    requires i < |records|
  {
    if Stored(log, records[i].id) then FindId(log.stream, records[i].id).value.streamSeq
    else |log.stream| + NewCount(log, records[..i]) + 1
  }

  /** The scalar sequence of a request: its compatibility sequence if it has one. */
  ghost function ScalarOf(log: EventLog, records: seq<EventRecord>, i: nat): int
    requires i < |records|
  {
    if records[i].compatibilitySeq > 0 then records[i].compatibilitySeq else StreamPlace(log, records, i)
  }

  /** Scalar sequences increase, and inside a partition stored events come in stream
      order and before new ones. */
  ghost predicate InSequence(log: EventLog, records: seq<EventRecord>) {
    forall i, j :: 0 <= i < j < |records| ==>
      && ScalarOf(log, records, i) < ScalarOf(log, records, j)
      && (records[i].partition == records[j].partition ==> Precedes(log, records[i].id, records[j].id))
  }

  // ---- What the messages look like -----------------------------------------------------------

  lemma {:induction false} ReachedLength(log: EventLog, records: seq<EventRecord>, i: nat)
    requires Valid(log) && RecordsAccepted(log, records) && i <= |records|
    ensures |Reached(log, records, i).log.stream| == |log.stream| + NewCount(log, records[..i])
  {
    hide Valid, RecordsAccepted, FindId, Reached, AppendAll, Stored;
    if i == 0 {
      ReachedNone(log, records);
      assert records[..0] == [];
    } else {
      ReachedLength(log, records, i - 1);
      ReachedStep(log, records, i - 1);
      assert records[..i][..i - 1] == records[..i - 1];
    }
  }

  lemma MessagePlace(log: EventLog, records: seq<EventRecord>, i: nat)
    requires Valid(log) && RecordsAccepted(log, records) && i < |records| && AppendAll(log, records).Ok?
    ensures AppendAll(log, records).value.messages[i].streamSeq == StreamPlace(log, records, i)
  {
    hide Valid, RecordsAccepted, FindId, Reached, AppendAll, Stored;
    ReachedMessage(log, records, i);
    ReachedStep(log, records, i);
    ReachedLength(log, records, i);
    MessageCount(log, records, i);
  }

  lemma MessageCount(log: EventLog, records: seq<EventRecord>, i: nat)
    requires Valid(log) && RecordsAccepted(log, records) && i <= |records|
    ensures |Reached(log, records, i).messages| == i
  {
    hide Valid;
  }

  /** The returned message of an accepted request. */
  ghost predicate Returned(log: EventLog, records: seq<EventRecord>, b: Batch, i: nat)
    requires i < |records| && |b.messages| == |records|
  {
    && FindId(b.log.stream, records[i].id) == Some(b.messages[i])
    && b.messages[i].streamSeq == StreamPlace(log, records, i) >= 1
    && EventSeq(b.messages[i]) == ScalarOf(log, records, i) >= 1
    && Place(b.messages[i]) == records[i].partition
  }

  lemma AnswerIsReturned(allow: bool, log: EventLog, records: seq<EventRecord>, b: Batch, i: nat)
    requires Valid(b.log) && Describes(log, records, b) && i < |records| && records[i].partition.Normal()
    requires b.messages[i].streamSeq == StreamPlace(log, records, i)
    ensures Returned(log, records, b, i) && MessageAccepted(allow, records[i], b.messages[i])
  {
    hide Valid, FindId, StreamPlace, NewInOrder;
    assert Answers(log, b.log, records[i], b.messages[i]);
    StoredIsPlaced(b.log, records[i].id);
  }

  lemma AllReturned(allow: bool, log: EventLog, records: seq<EventRecord>)
    requires Valid(log) && RecordsAccepted(log, records) && Sent(records)
    ensures AppendAll(log, records).Ok? && Describes(log, records, AppendAll(log, records).value)
    ensures
      var b := AppendAll(log, records).value;
      forall i :: 0 <= i < |records| ==> Returned(log, records, b, i) && MessageAccepted(allow, records[i], b.messages[i])
  {
    hide Valid, FindId, RecordsAccepted, AppendAll, Returned, MessageAccepted, StreamPlace;
    AppendAllDescribes(log, records);
    var b := AppendAll(log, records).value;
    forall i | 0 <= i < |records|
      ensures Returned(log, records, b, i) && MessageAccepted(allow, records[i], b.messages[i])
    {
      MessagePlace(log, records, i);
      AnswerIsReturned(allow, log, records, b, i);
    }
  }

  /** In the stream and inside a partition, i comes before j exactly when it precedes. */
  lemma OrderIsPrecedence(log: EventLog, records: seq<EventRecord>, b: Batch, i: nat, j: nat)
    requires Valid(log) && Describes(log, records, b) && DistinctIds(records) && i < j < |records|
    requires Returned(log, records, b, i) && Returned(log, records, b, j)
    ensures b.messages[i].streamSeq < b.messages[j].streamSeq <==> Precedes(log, records[i].id, records[j].id)
    ensures records[i].partition == records[j].partition ==>
              (b.messages[i].data.offset < b.messages[j].data.offset <==> Precedes(log, records[i].id, records[j].id))
  {
    hide Valid, FindId, StreamPlace, ScalarOf, EventSeq;
    assert Answers(log, b.log, records[i], b.messages[i]) && Answers(log, b.log, records[j], b.messages[j]);
    if Stored(log, records[i].id) {
      StoredIsPlaced(log, records[i].id);
    }
    if Stored(log, records[j].id) {
      StoredIsPlaced(log, records[j].id);
    }
    OffsetsFollowStream(b.log, records[i].id, records[j].id);
  }

  lemma OffsetsFollowStream(log: EventLog, a: EventId, b: EventId)
    requires Valid(log) && a != b && FindId(log.stream, a).Some? && FindId(log.stream, b).Some?
    ensures
      var m, n := FindId(log.stream, a).value, FindId(log.stream, b).value;
      && m.streamSeq != n.streamSeq
      && (Place(m) == Place(n) ==> (m.streamSeq < n.streamSeq <==> m.data.offset < n.data.offset))
  {
    hide FindId;
    StoredIsPlaced(log, a);
    StoredIsPlaced(log, b);
  }

  // ---- The theorem -------------------------------------------------------------------------------

  /** The check after the commit passes if and only if the request was in sequence.
      Any other accepted request is committed and then reported as an error. */
  lemma PostCheckExactly(allow: bool, log: EventLog, records: seq<EventRecord>)
    requires Valid(log) && RecordsAccepted(log, records) && Sent(records)
    ensures AppendAll(log, records).Ok?
    ensures PostCheck(allow, records, AppendAll(log, records).value.messages) <==> InSequence(log, records)
  {
    hide Valid, FindId, MessageAccepted, RecordsAccepted, AppendAll, ScalarOf, StreamPlace, Precedes, EventSeq, Place,
         Describes;
    AllReturned(allow, log, records);
    var b := AppendAll(log, records).value;
    forall i, j | 0 <= i < j < |records|
      ensures EventSeq(b.messages[i]) < EventSeq(b.messages[j]) <==>
                ScalarOf(log, records, i) < ScalarOf(log, records, j)
      ensures records[i].partition == records[j].partition ==>
                (b.messages[i].data.offset < b.messages[j].data.offset <==> Precedes(log, records[i].id, records[j].id))
    {
      OrderIsPrecedence(log, records, b, i, j);
    }
    assert forall i :: 0 <= i < |records| ==> Returned(log, records, b, i);
  }

  /** A new event before a stored one of the same partition, or of any when neither
      has a compatibility sequence, is committed and then rejected. */
  lemma NewBeforeStored(allow: bool, log: EventLog, records: seq<EventRecord>, i: nat, j: nat)
    requires Valid(log) && RecordsAccepted(log, records) && Sent(records)
    requires i < j < |records| && !Stored(log, records[i].id) && Stored(log, records[j].id)
    requires records[i].partition == records[j].partition || (records[i].compatibilitySeq <= 0 && records[j].compatibilitySeq <= 0)
    ensures AppendAll(log, records).Ok?
    ensures !PostCheck(allow, records, AppendAll(log, records).value.messages)
  {
    hide Valid, FindId, RecordsAccepted, AppendAll, PostCheck;
    PostCheckExactly(allow, log, records);
    StoredIsPlaced(log, records[j].id);
    assert ScalarOf(log, records, i) < ScalarOf(log, records, j) ==> records[i].partition == records[j].partition;
  }

  // ---- Native decisions ---------------------------------------------------------------------------

  lemma {:induction false} NewCountGrows(log: EventLog, records: seq<EventRecord>, i: nat, j: nat)
    requires i < j <= |records| && !Stored(log, records[i].id)
    ensures NewCount(log, records[..i]) < NewCount(log, records[..j])
  {
    hide Stored;
    assert records[..j][..j - 1] == records[..j - 1];
    if i < j - 1 {
      NewCountGrows(log, records, i, j - 1);
    }
  }

  lemma PlaceIsPrecedence(log: EventLog, records: seq<EventRecord>, i: nat, j: nat)
    requires Valid(log) && i < j < |records|
    ensures StreamPlace(log, records, i) < StreamPlace(log, records, j) <==> Precedes(log, records[i].id, records[j].id)
  {
    hide Valid, FindId, NewCount;
    if Stored(log, records[i].id) {
      StoredIsPlaced(log, records[i].id);
    } else {
      NewCountGrows(log, records, i, j);
    }
    if Stored(log, records[j].id) {
      StoredIsPlaced(log, records[j].id);
    }
  }

  /** The stored requests are the first k, if each request precedes the next ones. */
  lemma {:induction false} PrecedenceSplits(log: EventLog, records: seq<EventRecord>, k: nat)
    requires k <= |records| && forall i, j :: 0 <= i < j < |records| ==> Precedes(log, records[i].id, records[j].id)
    requires forall i :: k <= i < |records| ==> !Stored(log, records[i].id)
    ensures StoredThenNew(log, records)
  {
    hide FindId;
    if k > 0 && !Stored(log, records[k - 1].id) {
      PrecedenceSplits(log, records, k - 1);
    } else {
      forall i | 0 <= i < k ensures Stored(log, records[i].id) {
        assert i < k - 1 ==> Precedes(log, records[i].id, records[k - 1].id);
      }
      assert forall i :: 0 <= i < k ==> records[..k][i] == records[i];
      assert SplitsAt(log, records, k);
    }
  }

  lemma SplitPrecedes(log: EventLog, records: seq<EventRecord>, i: nat, j: nat)
    requires StoredThenNew(log, records) && i < j < |records|
    ensures Precedes(log, records[i].id, records[j].id)
  {
    hide FindId;
    var k: nat :| SplitsAt(log, records, k);
    if j < k {
      assert records[..k][i] == records[i] && records[..k][j] == records[j];
    }
  }

  /** Native events carry no compatibility sequence: the check passes if and only if
      the request is stored events in stream order, then new ones. */
  lemma NativePostCheck(allow: bool, log: EventLog, records: seq<EventRecord>)
    requires Valid(log) && RecordsAccepted(log, records) && StoreForm(records)
    ensures AppendAll(log, records).Ok?
    ensures PostCheck(allow, records, AppendAll(log, records).value.messages) <==> StoredThenNew(log, records)
  {
    hide Valid, FindId, RecordsAccepted, AppendAll, PostCheck, Precedes, StreamPlace, StoredThenNew;
    PostCheckExactly(allow, log, records);
    forall i, j | 0 <= i < j < |records|
      ensures ScalarOf(log, records, i) < ScalarOf(log, records, j) <==> Precedes(log, records[i].id, records[j].id)
    {
      PlaceIsPrecedence(log, records, i, j);
    }
    if StoredThenNew(log, records) {
      forall i, j | 0 <= i < j < |records| ensures Precedes(log, records[i].id, records[j].id) {
        SplitPrecedes(log, records, i, j);
      }
    }
    if InSequence(log, records) {
      PrecedenceSplits(log, records, |records|);
    }
  }

  // ---- At an input ------------------------------------------------------------------------------------

  function Sample(name: string): EventRecord {
    EventRecord(Named(name), "post", 0, [], "{}", 1, Partition("board", "b"), 0)
  }

  /** A log that holds one event, and a request for a new one followed by it: both
      are in the log afterwards, and the caller is told the commit failed. */
  lemma NewThenOldIsRejected(allow: bool)
    ensures
      var log := Push(EmptyLog, NewMessage(EmptyLog, Sample("old")));
      var records := [Sample("new"), Sample("old")];
      var r := AppendAll(log, records);
      && r.Ok? && FindId(r.value.log.stream, Named("new")).Some? && FindId(r.value.log.stream, Named("old")).Some?
      && !PostCheck(allow, records, r.value.messages)
  {
    hide PostCheck, AppendAll, Valid, RecordsAccepted, FindId;
    var log := Push(EmptyLog, NewMessage(EmptyLog, Sample("old")));
    var records := [Sample("new"), Sample("old")];
    SampleLog();
    NewBeforeStored(allow, log, records, 0, 1);
    AppendAllDescribes(log, records);
    var b := AppendAll(log, records).value;
    assert Answers(log, b.log, records[0], b.messages[0]) && Answers(log, b.log, records[1], b.messages[1]);
  }

  lemma SampleLog()
    ensures
      var log := Push(EmptyLog, NewMessage(EmptyLog, Sample("old")));
      && Valid(log) && RecordsAccepted(log, [Sample("new"), Sample("old")]) && Sent([Sample("new"), Sample("old")])
      && !Stored(log, Named("new")) && Stored(log, Named("old"))
  {
    hide Valid, FindId;
    PushValid(EmptyLog, Sample("old"));
    SampleFound();
  }

  lemma SampleFound()
    ensures
      var m := NewMessage(EmptyLog, Sample("old"));
      var log := Push(EmptyLog, m);
      FindId(log.stream, Named("old")) == Some(m) && FindId(log.stream, Named("new")).None?
  {
    var m := NewMessage(EmptyLog, Sample("old"));
    FindIdAppend([], m, Named("new"));
    FindIdAppend([], m, Named("old"));
    assert Push(EmptyLog, m).stream == [] + [m];
  }
}
