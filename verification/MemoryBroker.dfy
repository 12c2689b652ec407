/** The in-memory broker clients: per-partition lists, tails and lookup indexes,
    each proved to stand for one stream. */
module MemoryBroker {
  import opened LogModel
  import E = BrokerEventLog
  import C = BrokerCommandLog

  type EventId = E.EventId
  type EventRecord = E.EventRecord
  type EventMessage = E.EventMessage
  type CommandRecord = C.CommandRecord
  type CommandMessage = C.CommandMessage
  type ReceiptKey = C.ReceiptKey

  /** The in-memory broker client.  `stream` is what the maps stand for. */
  class MemoryEventLog {
    var messages: map<Partition, seq<EventMessage>>
    var tails: map<Partition, int>
    var byId: map<EventId, EventMessage>
    var head: int
    ghost var stream: seq<EventMessage>

    ghost function Log(): E.EventLog
      reads this
    {
      E.EventLog(stream, tails)
    }

    ghost predicate Consistent()
      reads this
    {
      E.Valid(Log()) && E.Indexes(stream, messages, byId) && head == |stream|
    }

    constructor ()
      ensures Consistent() && Log() == E.EmptyLog
    {
      messages, tails, byId, head, stream := map[], map[], map[], 0, [];
    }

    /** Store a message that follows the current state of the log. */
    method Store(m: EventMessage)
      requires Consistent()
      requires m.streamSeq == head + 1 && (m.data.id == E.NoId || m.data.id !in byId)
      requires E.Valid(E.Push(Log(), m))
      modifies this
      ensures Consistent() && Log() == E.Push(old(Log()), m)
    {
      hide E.Valid, E.Indexes;
      var messages' := messages[m.partition := E.ListOf(messages, m.partition) + [m]];
      var byId' := if m.data.id == E.NoId then byId else byId[m.data.id := m];
      E.IndexesPush(stream, messages, byId, m, messages', byId');
      messages, tails, byId, head, stream :=
        messages', tails[m.partition := m.offset], byId', m.streamSeq, stream + [m];
    }

    method AppendEvent(cancelled: bool, partition: Partition, record: EventRecord) returns (r: Result<EventMessage>)
      requires Consistent()
      modifies this
      ensures Consistent()
      ensures cancelled ==> r == Err(Cancelled)
      ensures !cancelled && r.Err? ==> E.Append(old(Log()), partition, record) == Err(r.error)
      ensures r.Err? ==> Log() == old(Log())
      ensures r.Ok? ==> E.Append(old(Log()), partition, record) == Ok(E.Appended(Log(), r.value))
    {
      hide E.Valid, E.Indexes, E.FindId;
      if cancelled {
        return Err(Cancelled);
      }
      var req := record.(partition := partition.Normalize());
      if req.id != E.NoId {
        E.LookUp(stream, messages, byId, req.id);
      }
      if req.id != E.NoId && req.id in byId {
        var existing := byId[req.id];
        if existing.partition != req.partition {
          return Err(DuplicateElsewhere);
        }
        if !E.SameIdentity(existing.data, req) {
          return Err(DuplicateContent);
        }
        return Ok(existing);
      }
      var offset := OffsetOf(tails, req.partition) + 1;
      if req.offset > 0 {
        if req.offset != offset {
          return Err(OffsetNotNext);
        }
        offset := req.offset;
      } else {
        req := req.(offset := offset);
      }
      if !E.Encodable(req) {
        return Err(Unencodable);
      }
      var m := Message(req.partition, offset, head + 1, req);
      E.PushValid(Log(), record.(partition := partition.Normalize()));
      Store(m);
      r := Ok(m);
    }

    method FetchEvents(partition: Partition, afterOffset: int, limit: int) returns (out: seq<EventMessage>)
      requires Consistent()
      ensures out == Limit(After(PartitionOf(stream, partition.Normalize()), afterOffset), limit)
    {
      out := FetchAfter(E.ListOf(messages, partition.Normalize()), afterOffset, limit);
    }

    method SeedEventPartitionOffset(partition: Partition, offset: int)
      requires Consistent()
      modifies this
      ensures Consistent() && Log() == E.Seed(old(Log()), partition, offset)
    {
      var seed := if offset < 0 then 0 else offset;
      var p := partition.Normalize();
      E.SeedValid(Log(), partition, offset);
      if seed > OffsetOf(tails, p) {
        tails := tails[p := seed];
      }
    }

    /** Every partition with a tail, each once; the source also orders them. */
    method ListEventPartitions() returns (partitions: seq<Partition>)
      requires Consistent()
      ensures forall p :: p in partitions <==> p in tails
      ensures forall i, j :: 0 <= i < j < |partitions| ==> partitions[i] != partitions[j]
    {
      partitions := [];
      var rest := tails.Keys;
      while rest != {}
        invariant rest <= tails.Keys
        invariant forall p :: p in partitions <==> p in tails && p !in rest
        invariant forall i, j :: 0 <= i < j < |partitions| ==> partitions[i] != partitions[j]
        decreases rest
      {
        var p :| p in rest;
        rest := rest - {p};
        partitions := partitions + [p];
      }
    }
  }

  /** The in-memory broker client.  `stream` is what the maps stand for. */
  class MemoryCommandLog {
    var messages: map<Partition, seq<CommandMessage>>
    var tails: map<Partition, int>
    var byReceipt: map<ReceiptKey, CommandMessage>
    var committed: map<Partition, int>
    var head: int
    ghost var stream: seq<CommandMessage>

    ghost function Log(): C.CommandLog
      reads this
    {
      C.CommandLog(stream, committed)
    }

    ghost predicate Consistent()
      reads this
    {
      C.Valid(Log()) && C.Indexes(stream, messages, tails, byReceipt) && head == |stream|
    }

    constructor ()
      ensures Consistent() && Log() == C.CommandLog([], map[])
    {
      messages, tails, byReceipt, committed, head, stream := map[], map[], map[], map[], 0, [];
    }

    /** Store a message that follows the current state of the log. */
    method Store(m: CommandMessage)
      requires Consistent() && C.Placed(m)
      requires m.streamSeq == |stream| + 1 && m.offset == Log().Tail(m.partition) + 1
      modifies this
      ensures Consistent() && Log() == old(Log()).(stream := old(stream) + [m])
    {
      hide C.Valid, C.Indexes;
      var stored := C.MessageKey(m);
      var messages' := messages[m.partition := C.ListOf(messages, m.partition) + [m]];
      var tails' := tails[m.partition := m.offset];
      var byReceipt' := if stored.None? then byReceipt else byReceipt[stored.value := m];
      C.IndexesPush(stream, messages, tails, byReceipt, m, messages', tails', byReceipt');
      C.PushCommand(Log(), m);
      messages, tails, byReceipt, head, stream := messages', tails', byReceipt', head + 1, stream + [m];
    }

    method AppendCommand(now: int, partition: Partition, record: CommandRecord) returns (r: Result<CommandMessage>)
      requires Consistent()
      modifies this
      ensures Consistent()
      ensures r.Err? ==> Log() == old(Log()) && C.AppendCommand(old(Log()), now, partition, record) == Err(r.error)
      ensures r.Ok? ==> C.AppendCommand(old(Log()), now, partition, record) == Ok(C.CommandAppended(Log(), r.value))
    {
      hide C.Valid, C.Indexes, C.FindReceipt, C.Trim, C.SyntheticCid;
      if C.Trim(record.cid) != "" && record.enqueuedAt <= 0 {
        return Err(MissingEnqueueTime);
      }
      var req := record.(partition := partition.Normalize(), source := C.NoSource);
      var key := C.KeyOf(req.partition, req.actor, req.cid);
      C.LookUp(stream, messages, tails, byReceipt, key, req.partition);
      if key.Some? && key.value in byReceipt {
        var existing := byReceipt[key.value];
        if !C.SameCommand(existing.data, req) {
          return Err(DuplicateReceipt);
        }
        return Ok(existing);
      }
      var offset := OffsetOf(tails, req.partition) + 1;
      req := req.(offset := offset);
      if req.cid == "" {
        req := req.(cid := C.SyntheticCid(req.partition, offset));
      }
      if req.enqueuedAt <= 0 {
        req := req.(enqueuedAt := now);
      }
      if req.command == "" || req.payload == "" || req.enqueuedAt <= 0 {
        return Err(Unencodable);
      }
      var m := Message(req.partition, offset, head + 1, req);
      Store(m);
      r := Ok(m);
    }

    method FetchCommands(partition: Partition, afterOffset: int, limit: int) returns (out: seq<CommandMessage>)
      requires Consistent()
      ensures out == Limit(After(PartitionOf(stream, partition.Normalize()), afterOffset), limit)
    {
      out := FetchAfter(C.ListOf(messages, partition.Normalize()), afterOffset, limit);
    }

    /** No check against the tail: the caller vouches for the offset. */
    method CommitPartition(partition: Partition, offset: int)
      requires Consistent()
      modifies this
      ensures Consistent() && Log() == old(Log()).(committed := C.Commit(old(committed), partition, offset))
    {
      var p := partition.Normalize();
      var target := if offset < 0 then 0 else offset;
      if target > OffsetOf(committed, p) {
        committed := committed[p := target];
      }
    }
  }
}
