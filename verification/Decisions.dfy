/** Decided events: what a deterministic decider makes of the commands of one
    partition, and which part of an event log came from there. */
module Decisions {
  import opened LogModel
  import opened BrokerEventLog
  import opened CommandEventTransaction
  import C = BrokerCommandLog

  datatype Decision = Applied(events: seq<EventRecord>) | Terminal

  type Decider = C.CommandRecord -> Decision

  function EventsOf(d: Decision): seq<EventRecord> {
    if d.Applied? then d.events else []
  }

  /** One event of a decision: a stable id made from the command and an ordinal,
      everything a transaction needs, and nothing the log assigns. */
  ghost predicate StableEvent(r: C.CommandRecord, e: EventRecord) {
    && e.id.Decided?
    && e.id == Decided("evt_", r.partition, r.offset, r.actor, r.cid, r.command, e.id.ordinal)
    && e.ts > 0 && Encodable(e) && e.compatibilitySeq == 0 && e.partition.Normal() && e.offset == 0
  }

  ghost predicate StableDecision(r: C.CommandRecord, d: Decision) {
    && (forall k :: 0 <= k < |EventsOf(d)| ==> StableEvent(r, EventsOf(d)[k]))
    && (forall k, l :: 0 <= k < l < |EventsOf(d)| ==> EventsOf(d)[k].id.ordinal < EventsOf(d)[l].id.ordinal)
  }

  /** A record as the log holds it: the log assigns both. */
  ghost predicate Logged(r: C.CommandRecord) {
    r.partition.Normal() && r.enqueuedAt > 0
  }

  ghost predicate Stable(decide: Decider) {
    forall r :: Logged(r) ==> StableDecision(r, decide(r))
  }

  /** All events decided for these commands, in order. */
  function DecidedEvents(decide: Decider, records: seq<C.CommandRecord>): seq<EventRecord> {
    if records == [] then []
    else DecidedEvents(decide, records[..|records| - 1]) + EventsOf(decide(records[|records| - 1]))
  }

  function Data<R>(messages: seq<Message<R>>): (r: seq<R>)
    ensures |r| == |messages| && forall i :: 0 <= i < |r| ==> r[i] == messages[i].data
  {
    seq(|messages|, i requires 0 <= i < |messages| => messages[i].data)
  }

  lemma DataPrefix<R>(a: seq<Message<R>>, b: seq<Message<R>>)
    requires a <= b
    ensures Data(a) <= Data(b)
  {
  }

  /** The commands of a partition; the one at index i has offset i + 1. */
  function Commands(log: C.CommandLog, p: Partition): (r: seq<C.CommandRecord>)
    ensures |r| == log.Tail(p)
  {
    Data(PartitionOf(log.stream, p))
  }

  predicate DecidedFrom(id: EventId, p: Partition) {
    id.Decided? && id.partition == p
  }

  /** The part of the stream decided from command partition p, offsets erased. */
  function Origin(stream: seq<EventMessage>, p: Partition): seq<EventRecord> {
    if stream == [] then []
    else
      var last := stream[|stream| - 1].data;
      Origin(stream[..|stream| - 1], p) + if DecidedFrom(last.id, p) then [last.(offset := 0)] else []
  }

  lemma CommandsPlaced(log: C.CommandLog, p: Partition, i: nat)
    requires C.Valid(log) && i < |Commands(log, p)|
    ensures Commands(log, p)[i].offset == i + 1 && Commands(log, p)[i].partition == p && p.Normal()
    ensures Commands(log, p)[i].source.NoSource? && Logged(Commands(log, p)[i])
  {
    var m := PartitionOf(log.stream, p)[i];
    PartitionOfSound(log.stream, p, i);
    var k :| 0 <= k < |log.stream| && log.stream[k] == m;
    assert C.Placed(log.stream[k]);
    assert Dense(PartitionOf(log.stream, p));
  }

  lemma {:induction false} DecidedConcat(decide: Decider, a: seq<C.CommandRecord>, b: seq<C.CommandRecord>)
    ensures DecidedEvents(decide, a + b) == DecidedEvents(decide, a) + DecidedEvents(decide, b)
  {
    hide DecidedEvents;
    if b == [] {
      assert a + b == a;
      DecidedNone(decide);
    } else {
      var n := |b| - 1;
      assert (a + b)[..|a + b| - 1] == a + b[..n];
      DecidedConcat(decide, a, b[..n]);
      DecidedLast(decide, a + b);
      DecidedLast(decide, b);
    }
  }

  lemma DecidedNone(decide: Decider)
    ensures DecidedEvents(decide, []) == []
  {
  }

  lemma DecidedLast(decide: Decider, records: seq<C.CommandRecord>)
    requires records != []
    ensures
      var n := |records| - 1;
      DecidedEvents(decide, records) == DecidedEvents(decide, records[..n]) + EventsOf(decide(records[n]))
  {
  }

  lemma DecidedSingle(decide: Decider, r: C.CommandRecord)
    ensures DecidedEvents(decide, [r]) == EventsOf(decide(r))
  {
    assert [r][..0] == [];
    assert DecidedEvents(decide, []) == [];
  }

  /** A slice of a partition's commands, as a worker holds it: offsets first + 1,
      first + 2, ... of partition p. */
  ghost predicate Slice(records: seq<C.CommandRecord>, p: Partition, first: int) {
    forall i :: 0 <= i < |records| ==>
      records[i].partition == p && records[i].offset == first + i + 1 && records[i].source.NoSource? && Logged(records[i])
  }

  /** An event decided for p at an offset in (lo, hi]. */
  ghost predicate DecidedIn(e: EventRecord, p: Partition, lo: int, hi: int) {
    && DecidedFrom(e.id, p) && lo < e.id.offset <= hi
    && e.ts > 0 && Encodable(e) && e.compatibilitySeq == 0 && e.partition.Normal() && e.offset == 0
  }

  lemma {:induction false} DecidedOffsets(decide: Decider, records: seq<C.CommandRecord>, p: Partition, first: int)
    requires Stable(decide) && Slice(records, p, first)
    ensures forall i :: 0 <= i < |DecidedEvents(decide, records)| ==>
              DecidedIn(DecidedEvents(decide, records)[i], p, first, first + |records|)
    ensures DistinctIds(DecidedEvents(decide, records))
  {
    if records != [] {
      var n := |records| - 1;
      DecidedOffsets(decide, records[..n], p, first);
      var init := DecidedEvents(decide, records[..n]);
      var last := EventsOf(decide(records[n]));
      assert Logged(records[n]) && StableDecision(records[n], decide(records[n]));
      var all := DecidedEvents(decide, records);
      forall i | 0 <= i < |all| ensures DecidedIn(all[i], p, first, first + |records|) {
        if i < |init| {
          assert DecidedIn(init[i], p, first, first + n);
        } else {
          assert StableEvent(records[n], last[i - |init|]);
        }
      }
      forall i, j | 0 <= i < j < |all| ensures all[i].id != all[j].id {
        if j < |init| {
          assert init[i].id != init[j].id;
        } else {
          assert StableEvent(records[n], last[j - |init|]);
          if i < |init| {
            assert DecidedIn(init[i], p, first, first + n);
          } else {
            assert last[i - |init|].id.ordinal < last[j - |init|].id.ordinal;
          }
        }
      }
    }
  }

  lemma OriginAppend(stream: seq<EventMessage>, m: EventMessage, p: Partition)
    ensures Origin(stream + [m], p) ==
            Origin(stream, p) + if DecidedFrom(m.data.id, p) then [m.data.(offset := 0)] else []
  {
    assert (stream + [m])[..|stream|] == stream;
  }

  lemma {:induction false} OriginAt(stream: seq<EventMessage>, p: Partition, a: nat) returns (i: nat)
    requires a < |Origin(stream, p)|
    ensures i < |stream| && stream[i].data.(offset := 0) == Origin(stream, p)[a] && DecidedFrom(stream[i].data.id, p)
  {
    var last := |stream| - 1;
    if a < |Origin(stream[..last], p)| {
      i := OriginAt(stream[..last], p, a);
    } else {
      i := last;
    }
  }

  /** Origin keeps stream order. */
  lemma {:induction false} OriginOrder(stream: seq<EventMessage>, p: Partition, a: nat, b: nat) returns (i: nat, j: nat)
    requires a < b < |Origin(stream, p)|
    ensures i < j < |stream|
    ensures stream[i].data.(offset := 0) == Origin(stream, p)[a]
    ensures stream[j].data.(offset := 0) == Origin(stream, p)[b]
  {
    var last := |stream| - 1;
    if b < |Origin(stream[..last], p)| {
      i, j := OriginOrder(stream[..last], p, a, b);
    } else {
      i := OriginAt(stream[..last], p, a);
      j := last;
    }
  }

  lemma {:induction false} OriginHas(stream: seq<EventMessage>, p: Partition, i: nat)
    requires i < |stream| && DecidedFrom(stream[i].data.id, p)
    ensures stream[i].data.(offset := 0) in Origin(stream, p)
  {
    var last := |stream| - 1;
    if i < last {
      OriginHas(stream[..last], p, i);
    }
  }
}
