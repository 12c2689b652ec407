/** Delivering one decided batch to the event log, when the log already holds
    exactly the events of the committed commands. */
module Delivery {
  import opened LogModel
  import opened BrokerEventLog
  import opened CommandEventTransaction
  import opened Decisions
  import C = BrokerCommandLog

  lemma OriginStored(log: EventLog, p: Partition, a: nat)
    requires Valid(log) && a < |Origin(log.stream, p)| && Origin(log.stream, p)[a].ts > 0
    ensures Stored(log, Origin(log.stream, p)[a].id) && RecordAccepted(log, Origin(log.stream, p)[a])
  {
    var e := Origin(log.stream, p)[a];
    var i := OriginAt(log.stream, p, a);
    FindIdUnique(log, i);
    assert WellPlaced(log, log.stream[i]);
  }

  ghost predicate Earlier(log: EventLog, a: EventId, b: EventId) {
    && FindId(log.stream, a).Some? && FindId(log.stream, b).Some?
    && FindId(log.stream, a).value.streamSeq < FindId(log.stream, b).value.streamSeq
  }

  lemma OriginStoredOrder(log: EventLog, p: Partition, a: nat, b: nat)
    requires Valid(log) && a < b < |Origin(log.stream, p)|
    ensures Earlier(log, Origin(log.stream, p)[a].id, Origin(log.stream, p)[b].id)
  {
    var i, j := OriginOrder(log.stream, p, a, b);
    var k := OriginAt(log.stream, p, a);
    var l := OriginAt(log.stream, p, b);
    assert log.stream[i].data.id == log.stream[k].data.id;
    assert log.stream[j].data.id == log.stream[l].data.id;
    FindIdUnique(log, i);
    FindIdUnique(log, j);
  }

  lemma FreshNotStored(log: EventLog, p: Partition, hi: int, id: EventId)
    requires DecidedFrom(id, p) && id.offset > hi
    requires forall a :: 0 <= a < |Origin(log.stream, p)| ==>
              Origin(log.stream, p)[a].id.Decided? && Origin(log.stream, p)[a].id.offset <= hi
    ensures !Stored(log, id)
  {
    forall i | 0 <= i < |log.stream| ensures log.stream[i].data.id != id {
      if DecidedFrom(log.stream[i].data.id, p) {
        OriginHas(log.stream, p, i);
        var a :| 0 <= a < |Origin(log.stream, p)| && Origin(log.stream, p)[a] == log.stream[i].data.(offset := 0);
        assert Origin(log.stream, p)[a].id == log.stream[i].data.id;
      }
    }
  }

  lemma PushStream(log: EventLog, m: EventMessage)
    ensures Push(log, m).stream == log.stream + [m]
  {
  }

  /** New decided events extend the origin of their own partition only. */
  lemma {:induction false} FreshOrigin(log: EventLog, records: seq<EventRecord>, p: Partition, lo: int, hi: int, i: nat,
                                       q: Partition)
    requires Valid(log) && RecordsAccepted(log, records) && i <= |records|
    requires forall k :: 0 <= k < |records| ==> DecidedIn(records[k], p, lo, hi) && !Stored(log, records[k].id)
    ensures Origin(Reached(log, records, i).log.stream, q) == Origin(log.stream, q) + if q == p then records[..i] else []
  {
    hide Valid, RecordsAccepted, FindId, Append, AppendAll, Origin, Reached, Encodable, Stored, Push;
    if i == 0 {
      assert records[..0] == [];
      ReachedNone(log, records);
    } else {
      FreshOrigin(log, records, p, lo, hi, i - 1, q);
      ReachedStep(log, records, i - 1);
      var r := records[i - 1];
      var b := Reached(log, records, i - 1);
      assert DecidedIn(r, p, lo, hi);
      OriginAppend(b.log.stream, NewMessage(b.log, Request(r)), q);
      assert NewMessage(b.log, Request(r)).data.(offset := 0) == r;
      assert Push(b.log, NewMessage(b.log, Request(r))).stream == b.log.stream + [NewMessage(b.log, Request(r))] by {
        PushStream(b.log, NewMessage(b.log, Request(r)));
      }
      assert records[..i] == records[..i - 1] + [r];
    }
  }

  /** The committed commands of p, and the batch a worker submits: a part that is
      already committed, then a part that follows it. */
  ghost predicate Submitted(p: Partition, done: seq<C.CommandRecord>, f: nat, overlap: seq<C.CommandRecord>,
                            later: seq<C.CommandRecord>) {
    && Slice(done, p, 0) && Slice(later, p, |done|)
    && f + |overlap| <= |done| && overlap == done[f..f + |overlap|]
    && (later == [] || f + |overlap| == |done|)
  }

  ghost predicate InStep(decide: Decider, log: EventLog, p: Partition, done: seq<C.CommandRecord>) {
    Origin(log.stream, p) == DecidedEvents(decide, done)
  }

  /** Consecutive commands decide a consecutive segment of the events. */
  lemma Segment(decide: Decider, done: seq<C.CommandRecord>, f: nat, n: nat) returns (base: nat)
    requires f + n <= |done|
    ensures base + |DecidedEvents(decide, done[f..f + n])| <= |DecidedEvents(decide, done)|
    ensures DecidedEvents(decide, done[f..f + n]) ==
            DecidedEvents(decide, done)[base..base + |DecidedEvents(decide, done[f..f + n])|]
  {
    hide DecidedEvents;
    var overlap := done[f..f + n];
    base := |DecidedEvents(decide, done[..f])|;
    DecidedConcat(decide, done[..f], overlap);
    DecidedConcat(decide, done[..f] + overlap, done[f + n..]);
    assert done == done[..f] + overlap + done[f + n..];
  }

  /** The committed part is found in the log, in order. */
  lemma OverlapStored(decide: Decider, log: EventLog, p: Partition, done: seq<C.CommandRecord>, f: nat,
                      overlap: seq<C.CommandRecord>)
    requires Stable(decide) && Valid(log) && InStep(decide, log, p, done)
    requires Slice(done, p, 0) && f + |overlap| <= |done| && overlap == done[f..f + |overlap|]
    ensures StoredInOrder(log, DecidedEvents(decide, overlap))
    ensures forall i :: 0 <= i < |DecidedEvents(decide, overlap)| ==>
              RecordAccepted(log, DecidedEvents(decide, overlap)[i])
  {
    hide Valid, FindId, RecordAccepted, Origin, Stored, Stable, DecidedEvents, Slice, StoredInOrder, DistinctIds,
         DecidedIn, Earlier;
    var events := DecidedEvents(decide, overlap);
    var base := Segment(decide, done, f, |overlap|);
    DecidedOffsets(decide, done, p, 0);
    forall i | 0 <= i < |events| ensures Stored(log, events[i].id) && RecordAccepted(log, events[i]) {
      assert DecidedIn(DecidedEvents(decide, done)[base + i], p, 0, |done|);
      DecidedTimestamp(DecidedEvents(decide, done)[base + i], p, 0, |done|);
      OriginStored(log, p, base + i);
    }
    forall i, j | 0 <= i < j < |events| ensures Earlier(log, events[i].id, events[j].id) {
      OriginStoredOrder(log, p, base + i, base + j);
    }
    StoredInOrderIntro(log, events);
  }

  lemma DecidedTimestamp(e: EventRecord, p: Partition, lo: int, hi: int)
    requires DecidedIn(e, p, lo, hi)
    ensures e.ts > 0
  {
  }

  lemma StoredInOrderIntro(log: EventLog, events: seq<EventRecord>)
    requires forall i :: 0 <= i < |events| ==> Stored(log, events[i].id)
    requires forall i, j :: 0 <= i < j < |events| ==> Earlier(log, events[i].id, events[j].id)
    ensures StoredInOrder(log, events)
  {
    assert forall i, j :: 0 <= i < j < |events| ==> Earlier(log, events[i].id, events[j].id);
  }

  /** The part that follows is not in the log at all. */
  lemma FreshAccepted(decide: Decider, log: EventLog, p: Partition, done: seq<C.CommandRecord>,
                      later: seq<C.CommandRecord>)
    requires Stable(decide) && InStep(decide, log, p, done) && Slice(done, p, 0) && Slice(later, p, |done|)
    ensures forall i :: 0 <= i < |DecidedEvents(decide, later)| ==>
              && DecidedIn(DecidedEvents(decide, later)[i], p, |done|, |done| + |later|)
              && !Stored(log, DecidedEvents(decide, later)[i].id)
              && RecordAccepted(log, DecidedEvents(decide, later)[i])
  {
    hide FindId, Origin;
    var events := DecidedEvents(decide, later);
    DecidedOffsets(decide, done, p, 0);
    DecidedOffsets(decide, later, p, |done|);
    forall i | 0 <= i < |events| ensures !Stored(log, events[i].id) && RecordAccepted(log, events[i]) {
      assert DecidedIn(events[i], p, |done|, |done| + |later|);
      assert forall a :: 0 <= a < |Origin(log.stream, p)| ==> DecidedIn(DecidedEvents(decide, done)[a], p, 0, |done|);
      FreshNotStored(log, p, |done|, events[i].id);
    }
  }

  /** A submission is always accepted: it is stored events in stream order, then
      new ones. */
  lemma SubmissionAccepted(decide: Decider, log: EventLog, p: Partition, done: seq<C.CommandRecord>, f: nat,
                           overlap: seq<C.CommandRecord>, later: seq<C.CommandRecord>)
    requires Stable(decide) && Valid(log) && InStep(decide, log, p, done) && Submitted(p, done, f, overlap, later)
    ensures
      var records := DecidedEvents(decide, overlap + later);
      RecordsAccepted(log, records) && StoreForm(records) && StoredThenNew(log, records)
  {
    hide Valid, FindId, RecordAccepted, Stored, InStep, Stable, DecidedEvents, Encodable, StoredInOrder;
    var stored, news := DecidedEvents(decide, overlap), DecidedEvents(decide, later);
    var records := DecidedEvents(decide, overlap + later);
    DecidedConcat(decide, overlap, later);
    OverlapStored(decide, log, p, done, f, overlap);
    FreshAccepted(decide, log, p, done, later);
    assert Slice(overlap + later, p, f);
    DecidedOffsets(decide, overlap + later, p, f);
    forall i | 0 <= i < |records|
      ensures RecordAccepted(log, records[i])
      ensures records[i].partition.Normal() && records[i].compatibilitySeq == 0
    {
      assert DecidedIn(records[i], p, f, f + |overlap + later|);
      assert if i < |stored| then records[i] == stored[i] else records[i] == news[i - |stored|];
    }
    assert records[..|stored|] == stored;
    assert SplitsAt(log, records, |stored|) by {
      forall i | |stored| <= i < |records| ensures !Stored(log, records[i].id) {
        assert records[i] == news[i - |stored|];
      }
    }
  }

  /** After delivery the log holds exactly the events of the commands up to the
      new committed offset, and nothing changed for other partitions. */
  lemma SubmissionEffect(decide: Decider, log: EventLog, p: Partition, done: seq<C.CommandRecord>, f: nat,
                         overlap: seq<C.CommandRecord>, later: seq<C.CommandRecord>)
    requires Stable(decide) && Valid(log) && InStep(decide, log, p, done) && Submitted(p, done, f, overlap, later)
    ensures
      var r := AppendAll(log, DecidedEvents(decide, overlap + later));
      && r.Ok? && Valid(r.value.log) && InStep(decide, r.value.log, p, done + later)
      && forall q :: q != p ==> Origin(r.value.log.stream, q) == Origin(log.stream, q)
  {
    hide Valid, FindId, RecordAccepted, Stored, AppendAll, Stable, DecidedEvents, Encodable, Origin, Reached, Slice,
         DecidedIn;
    var stored, news := DecidedEvents(decide, overlap), DecidedEvents(decide, later);
    DecidedConcat(decide, overlap, later);
    DecidedConcat(decide, done, later);
    OverlapStored(decide, log, p, done, f, overlap);
    AppendAllStored(log, stored);
    AppendAllConcat(log, stored, news);
    FreshAccepted(decide, log, p, done, later);
    DecidedOffsets(decide, later, p, |done|);
    assert RecordsAccepted(log, news);
    var after := Reached(log, news, |news|).log;
    assert news[..|news|] == news;
    forall q ensures Origin(after.stream, q) == Origin(log.stream, q) + if q == p then news else [] {
      FreshOrigin(log, news, p, |done|, |done| + |later|, |news|, q);
    }
  }
}
