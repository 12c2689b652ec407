/** The broker event log as one stream of messages: appending, seeding, and the
    invariant every step keeps. */
module BrokerEventLog {
  import opened LogModel

  /** Event ids.  `NoId` is the empty string; `Decided` is a stable decision id,
      kept as the tuple that the source hashes. */
  datatype EventId =
    | NoId
    | Named(name: string)
    | Decided(prefix: string, partition: Partition, offset: int,
              actor: string, cid: string, command: string, ordinal: int)

  datatype EventRecord = EventRecord(
    id: EventId, kind: string, compatibilitySeq: int, scopes: seq<string>,
    payload: string, ts: int, partition: Partition, offset: int)

  type EventMessage = Message<EventRecord>

  /** Same event, whatever offset the log gave it. */
  predicate SameIdentity(existing: EventRecord, requested: EventRecord) {
    && existing.id == requested.id
    && existing.kind == requested.kind
    && existing.compatibilitySeq == requested.compatibilitySeq
    && existing.ts == requested.ts
    && existing.partition == requested.partition
    && existing.payload == requested.payload
    && existing.scopes == requested.scopes
  }

  /** A record with its offset assigned can be written to the broker. */
  predicate Encodable(record: EventRecord) {
    record.kind != "" && record.payload != ""
  }

  /** The scalar sequence of an event. */
  function EventSeq(m: EventMessage): int {
    if m.data.compatibilitySeq > 0 then m.data.compatibilitySeq else m.streamSeq
  }

  /** Everything ever appended, in order, plus the partition tails (which seeding
      may move past the last message). */
  datatype EventLog = EventLog(stream: seq<EventMessage>, tails: map<Partition, int>) {
    function Tail(p: Partition): int {
      OffsetOf(tails, p)
    }
  }

  const EmptyLog := EventLog([], map[])

  function FindId(stream: seq<EventMessage>, id: EventId): (r: Option<EventMessage>)
    ensures r.Some? ==> r.value in stream && r.value.data.id == id
    ensures r.None? ==> forall i :: 0 <= i < |stream| ==> stream[i].data.id != id
  {
    if stream == [] then None
    else
      var last := stream[|stream| - 1];
      if last.data.id == id then Some(last) else FindId(stream[..|stream| - 1], id)
  }

  ghost predicate WellPlaced(log: EventLog, m: EventMessage) {
    && m.partition.Normal() && m.partition == m.data.partition
    && m.offset == m.data.offset
    && 1 <= m.offset <= log.Tail(m.partition)
    && Encodable(m.data)
  }

  /** The log invariant. */
  ghost predicate Valid(log: EventLog) {
    && (forall i :: 0 <= i < |log.stream| ==> log.stream[i].streamSeq == i + 1)
    && (forall i :: 0 <= i < |log.stream| ==> WellPlaced(log, log.stream[i]))
    && (forall i, j :: 0 <= i < j < |log.stream| && log.stream[i].partition == log.stream[j].partition ==>
          log.stream[i].offset < log.stream[j].offset)
    && (forall i, j :: 0 <= i < j < |log.stream| && log.stream[i].data.id == log.stream[j].data.id ==>
          log.stream[i].data.id == NoId)
    && (forall p :: p in log.tails ==> p.Normal() && 0 <= log.tails[p])
  }

  datatype Appended = Appended(log: EventLog, message: EventMessage)

  function NewMessage(log: EventLog, record: EventRecord): EventMessage {
    var offset := log.Tail(record.partition) + 1;
    Message(record.partition, offset, |log.stream| + 1, record.(offset := offset))
  }

  function Push(log: EventLog, m: EventMessage): EventLog {
    EventLog(log.stream + [m], log.tails[m.partition := m.offset])
  }

  /** One append, on the simple form of the log. */
  function Append(log: EventLog, partition: Partition, record: EventRecord): Result<Appended> {
    var r := record.(partition := partition.Normalize());
    var existing := if r.id == NoId then None else FindId(log.stream, r.id);
    if existing.Some? then
      if existing.value.partition != r.partition then Err(DuplicateElsewhere)
      else if !SameIdentity(existing.value.data, r) then Err(DuplicateContent)
      else Ok(Appended(log, existing.value))
    else if r.offset > 0 && r.offset != log.Tail(r.partition) + 1 then Err(OffsetNotNext)
    else if !Encodable(r) then Err(Unencodable)
    else
      var m := NewMessage(log, r);
      Ok(Appended(Push(log, m), m))
  }

  function Seed(log: EventLog, partition: Partition, offset: int): EventLog {
    var p := partition.Normalize();
    if offset > log.Tail(p) then log.(tails := log.tails[p := offset]) else log
  }

  lemma FindIdAppend(stream: seq<EventMessage>, m: EventMessage, id: EventId)
    ensures FindId(stream + [m], id) == if m.data.id == id then Some(m) else FindId(stream, id)
  {
    assert (stream + [m])[..|stream|] == stream;
  }

  lemma PushValid(log: EventLog, r: EventRecord)
    requires Valid(log) && r.partition.Normal() && Encodable(r)
    requires r.id == NoId || FindId(log.stream, r.id).None?
    ensures Valid(Push(log, NewMessage(log, r)))
  {
    var m := NewMessage(log, r);
    var log' := Push(log, m);
    forall i | 0 <= i < |log'.stream| ensures WellPlaced(log', log'.stream[i]) {
      if i < |log.stream| {
        assert WellPlaced(log, log.stream[i]);
      }
    }
  }

  /** Every append and every seed keeps the invariant. */
  lemma AppendEventValid(log: EventLog, partition: Partition, record: EventRecord)
    requires Valid(log) && Append(log, partition, record).Ok?
    ensures Valid(Append(log, partition, record).value.log)
    ensures Append(log, partition, record).value.message in Append(log, partition, record).value.log.stream
  {
    var r := record.(partition := partition.Normalize());
    if r.id == NoId || FindId(log.stream, r.id).None? {
      PushValid(log, r);
    }
  }

  lemma SeedValid(log: EventLog, partition: Partition, offset: int)
    requires Valid(log)
    ensures Valid(Seed(log, partition, offset))
    ensures Seed(log, partition, offset).stream == log.stream
  {
    var log' := Seed(log, partition, offset);
    forall i | 0 <= i < |log.stream| ensures WellPlaced(log', log'.stream[i]) {
      assert WellPlaced(log, log.stream[i]);
    }
  }

  /** A seed raises one tail to the offset, if that is higher, and no other. */
  lemma SeedRaises(log: EventLog, partition: Partition, offset: int, q: Partition)
    ensures Seed(log, partition, offset).Tail(q) ==
            if q == partition.Normalize() && offset > log.Tail(q) then offset else log.Tail(q)
  {
  }

  /** An append of an id that is stored: accepted exactly when the stored event is the same
      in every respect but its offset, and then nothing changes. */
  lemma AppendOfStored(log: EventLog, partition: Partition, record: EventRecord, i: nat)
    requires Valid(log) && i < |log.stream| && log.stream[i].data.id == record.id != NoId
    ensures
      var r, p, e := Append(log, partition, record), partition.Normalize(), log.stream[i].data;
      && (r.Ok? <==> e.kind == record.kind && e.compatibilitySeq == record.compatibilitySeq && e.scopes == record.scopes
                     && e.payload == record.payload && e.ts == record.ts && e.partition == p)
      && (r.Ok? ==> r.value == Appended(log, log.stream[i]))
      && (r.Err? ==> r.error == if e.partition != p then DuplicateElsewhere else DuplicateContent)
  {
    FindIdUnique(log, i);
    assert WellPlaced(log, log.stream[i]);
  }

  /** An append of anything else: accepted exactly when it has a kind and a payload and asks
      for no offset but the next one, and then it is the next message of its partition and
      of the stream. */
  lemma AppendOfNew(log: EventLog, partition: Partition, record: EventRecord)
    requires record.id == NoId || forall i :: 0 <= i < |log.stream| ==> log.stream[i].data.id != record.id
    ensures
      var r, p, next := Append(log, partition, record), partition.Normalize(), log.Tail(partition.Normalize()) + 1;
      && (r.Ok? <==> record.kind != "" && record.payload != "" && (record.offset <= 0 || record.offset == next))
      && (r.Ok? ==>
            var m := Message(p, next, |log.stream| + 1, record.(partition := p, offset := next));
            && r.value.message == m && r.value.log.stream == log.stream + [m]
            && forall q :: r.value.log.Tail(q) == if q == p then next else log.Tail(q))
  {
  }

  /** The id index is faithful: a stored id names exactly one message. */
  lemma FindIdUnique(log: EventLog, i: nat)
    requires Valid(log) && i < |log.stream| && log.stream[i].data.id != NoId
    ensures FindId(log.stream, log.stream[i].data.id) == Some(log.stream[i])
  {
    var m := FindId(log.stream, log.stream[i].data.id).value;
    var j :| 0 <= j < |log.stream| && log.stream[j] == m;
    assert i == j;
  }

  /** Offsets and stream sequences increase together inside a partition. */
  lemma PartitionIncreases(log: EventLog, p: Partition)
    requires Valid(log)
    ensures OffsetsIncrease(PartitionOf(log.stream, p))
    ensures forall a, b :: 0 <= a < b < |PartitionOf(log.stream, p)| ==>
              PartitionOf(log.stream, p)[a].streamSeq < PartitionOf(log.stream, p)[b].streamSeq
  {
    forall a, b | 0 <= a < b < |PartitionOf(log.stream, p)|
      ensures PartitionOf(log.stream, p)[a].offset < PartitionOf(log.stream, p)[b].offset
      ensures PartitionOf(log.stream, p)[a].streamSeq < PartitionOf(log.stream, p)[b].streamSeq
    {
      var i, j := PartitionOfOrder(log.stream, p, a, b);
    }
  }

  lemma SamePlace(log: EventLog, p: Partition, k: nat, q: Partition, l: nat)
    requires Valid(log) && k < |PartitionOf(log.stream, p)| && l < |PartitionOf(log.stream, q)|
    requires PartitionOf(log.stream, p)[k].streamSeq == PartitionOf(log.stream, q)[l].streamSeq
    ensures p == q && k == l
  {
    PartitionOfSound(log.stream, p, k);
    PartitionOfSound(log.stream, q, l);
    PartitionIncreases(log, p);
  }

  /** Stream sequences over all partitions are a bijection onto 1..head: each one
      sits at exactly one place of exactly one partition. */
  lemma StreamSeqBijection(log: EventLog, s: int) returns (p: Partition, k: nat)
    requires Valid(log) && 1 <= s <= |log.stream|
    ensures k < |PartitionOf(log.stream, p)| && PartitionOf(log.stream, p)[k].streamSeq == s
    ensures forall q, l: nat :: l < |PartitionOf(log.stream, q)| && PartitionOf(log.stream, q)[l].streamSeq == s ==>
              q == p && l == k
  {
    var m := log.stream[s - 1];
    p := m.partition;
    PartitionOfMember(log.stream, m);
    k :| 0 <= k < |PartitionOf(log.stream, p)| && PartitionOf(log.stream, p)[k] == m;
    forall q, l: nat | l < |PartitionOf(log.stream, q)| && PartitionOf(log.stream, q)[l].streamSeq == s
      ensures q == p && l == k
    {
      SamePlace(log, p, k, q, l);
    }
  }

  function ListOf(messages: map<Partition, seq<EventMessage>>, p: Partition): seq<EventMessage> {
    if p in messages then messages[p] else []
  }

  /** The client's maps describe exactly this stream. */
  ghost predicate Indexes(stream: seq<EventMessage>, messages: map<Partition, seq<EventMessage>>,
                          byId: map<EventId, EventMessage>)
  {
    && (forall p :: ListOf(messages, p) == PartitionOf(stream, p))
    && (forall id :: id in byId ==> id != NoId && FindId(stream, id) == Some(byId[id]))
    && (forall i :: 0 <= i < |stream| && stream[i].data.id != NoId ==> stream[i].data.id in byId)
  }

  lemma LookUp(stream: seq<EventMessage>, messages: map<Partition, seq<EventMessage>>, byId: map<EventId, EventMessage>, id: EventId)
    requires Indexes(stream, messages, byId) && id != NoId
    ensures FindId(stream, id) == if id in byId then Some(byId[id]) else None
  {
  }

  lemma IndexesPush(stream: seq<EventMessage>, messages: map<Partition, seq<EventMessage>>,
                    byId: map<EventId, EventMessage>, m: EventMessage,
                    messages': map<Partition, seq<EventMessage>>, byId': map<EventId, EventMessage>)
    requires Indexes(stream, messages, byId)
    requires m.data.id == NoId || m.data.id !in byId
    requires messages' == messages[m.partition := ListOf(messages, m.partition) + [m]]
    requires byId' == if m.data.id == NoId then byId else byId[m.data.id := m]
    ensures Indexes(stream + [m], messages', byId')
  {
    forall p ensures ListOf(messages', p) == PartitionOf(stream + [m], p) {
      PartitionOfAppend(stream, m, p);
      assert ListOf(messages, p) == PartitionOf(stream, p);
    }
    forall id | id in byId' ensures id != NoId && FindId(stream + [m], id) == Some(byId'[id]) {
      FindIdAppend(stream, m, id);
    }
  }
}
