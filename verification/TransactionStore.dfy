/** The transaction client over the two in-memory logs, and the store around it
    that checks what the client returned after the commit took effect. */
module TransactionStore {
  import opened LogModel
  import opened MemoryBroker
  import E = BrokerEventLog
  import C = BrokerCommandLog
  import T = CommandEventTransaction

  datatype Pending = Pending(message: EventMessage, isNew: bool)

  datatype Committed = Committed(messages: seq<EventMessage>, commits: seq<T.CommitPosition>)

  ghost function CommitOf(committed: map<Partition, int>, positions: seq<T.CommitPosition>, i: nat): T.CommitPosition
    requires i < |positions|
  {
    var p := positions[i].partition.Normalize();
    T.CommitPosition(p, OffsetOf(T.CommitAll(committed, positions[..i + 1]), p), positions[i].source)
  }

  /** The plan agrees with appending the first k records one by one. */
  ghost predicate Planned(log: E.EventLog, records: seq<EventRecord>, k: nat, pending: seq<Pending>,
                          counts: map<Partition, int>, byId: map<EventId, EventRecord>, head: int)
  {
    && E.Valid(log) && k <= |records| && T.RecordsAccepted(log, records[..k])
    && var r := T.AppendAll(log, records[..k]);
    && r.Ok? && |pending| == k && head == |r.value.log.stream|
    && (forall i :: 0 <= i < k ==> pending[i] == Pending(r.value.messages[i], !T.Stored(log, records[i].id)))
    && (forall p :: log.Tail(p) + OffsetOf(counts, p) == r.value.log.Tail(p))
    && (forall id :: id in byId <==> !T.Stored(log, id) && T.Requested(records[..k], id))
  }

  lemma RequestedSnoc(records: seq<EventRecord>, k: nat, id: EventId)
    requires k < |records|
    ensures T.Requested(records[..k + 1], id) <==> T.Requested(records[..k], id) || records[k].id == id
  {
    assert records[..k + 1] == records[..k] + [records[k]];
    if T.Requested(records[..k], id) {
      var i :| 0 <= i < k && records[..k][i].id == id;
      assert records[..k + 1][i].id == id;
    }
    if records[k].id == id {
      assert records[..k + 1][k].id == id;
    }
  }

  lemma PlanReached(log: E.EventLog, records: seq<EventRecord>, k: nat)
    requires E.Valid(log) && k < |records| && T.RecordsAccepted(log, records[..k + 1])
    ensures
      var one, two, r := T.AppendAll(log, records[..k]), T.AppendAll(log, records[..k + 1]), records[k];
      && one.Ok?
      && if T.Stored(log, r.id) then
           two == Ok(T.Batch(one.value.log, one.value.messages + [E.FindId(log.stream, r.id).value]))
         else
           var m := E.NewMessage(one.value.log, T.Request(r));
           two == Ok(T.Batch(E.Push(one.value.log, m), one.value.messages + [m]))
  {
    hide E.Valid, T.AppendAll;
    var prefix := records[..k + 1];
    assert prefix[..k] == records[..k] && prefix[..k + 1] == prefix;
    T.ReachedStep(log, prefix, k);
  }

  lemma PlanStored(log: E.EventLog, records: seq<EventRecord>, k: nat, pending: seq<Pending>,
                   counts: map<Partition, int>, byId: map<EventId, EventRecord>, head: int)
    requires Planned(log, records, k, pending, counts, byId, head) && k < |records|
    requires T.RecordAccepted(log, records[k]) && T.Stored(log, records[k].id)
    ensures Planned(log, records, k + 1, pending + [Pending(E.FindId(log.stream, records[k].id).value, false)], counts, byId, head)
  {
    hide E.Valid, T.AppendAll, T.RecordAccepted, E.FindId;
    T.AcceptedSnoc(log, records, k);
    PlanReached(log, records, k);
    forall id ensures id in byId <==> !T.Stored(log, id) && T.Requested(records[..k + 1], id) {
      RequestedSnoc(records, k, id);
    }
  }

  lemma PlanNew(log: E.EventLog, records: seq<EventRecord>, k: nat, pending: seq<Pending>,
                counts: map<Partition, int>, byId: map<EventId, EventRecord>, head: int, m: EventMessage,
                counts': map<Partition, int>, byId': map<EventId, EventRecord>)
    requires Planned(log, records, k, pending, counts, byId, head) && k < |records|
    requires T.RecordAccepted(log, records[k]) && !T.Stored(log, records[k].id) && records[k].id !in byId
    requires
      var p := records[k].partition.Normalize();
      var offset := log.Tail(p) + OffsetOf(counts, p) + 1;
      && m == Message(p, offset, head + 1, records[k].(partition := p, offset := offset))
      && counts' == counts[p := OffsetOf(counts, p) + 1]
    requires byId'.Keys == byId.Keys + {records[k].id}
    ensures Planned(log, records, k + 1, pending + [Pending(m, true)], counts', byId', head + 1)
  {
    hide E.Valid, T.AppendAll, T.RecordAccepted, T.RecordsAccepted, T.Requested, T.Stored, E.FindId;
    T.AcceptedSnoc(log, records, k);
    PlanReached(log, records, k);
    assert m == E.NewMessage(T.AppendAll(log, records[..k]).value.log, T.Request(records[k]));
    forall id ensures id in byId' <==> !T.Stored(log, id) && T.Requested(records[..k + 1], id) {
      RequestedSnoc(records, k, id);
    }
  }

  lemma NotAccepted(log: E.EventLog, records: seq<EventRecord>, k: nat)
    requires k <= |records| && !T.RecordsAccepted(log, records[..k])
    ensures !T.RecordsAccepted(log, records)
  {
    if T.RecordsAccepted(log, records) {
      T.AcceptedPrefix(log, records, k);
    }
  }

  class MemoryTransactions {
    const commands: MemoryCommandLog
    const events: MemoryEventLog

    constructor (commands: MemoryCommandLog, events: MemoryEventLog)
      ensures this.commands == commands && this.events == events
    {
      this.commands, this.events := commands, events;
    }

    ghost predicate Consistent()
      reads this, commands, events
    {
      commands.Consistent() && events.Consistent()
    }

    /** Assign offsets and stream sequences without touching the log. */
    method Plan(records: seq<EventRecord>) returns (r: Result<seq<Pending>>)
      requires events.Consistent()
      ensures r.Ok? <==> T.RecordsAccepted(events.Log(), records)
      ensures r.Ok? ==> T.AppendAll(events.Log(), records).Ok? && |r.value| == |records|
      ensures r.Ok? ==> forall i :: 0 <= i < |records| ==>
                r.value[i] == Pending(T.AppendAll(events.Log(), records).value.messages[i],
                                      !T.Stored(events.Log(), records[i].id))
    {
      hide E.Valid, T.RecordsAccepted, T.AppendAll, E.FindId;
      var pendingCounts: map<Partition, int> := map[];
      var pendingById: map<EventId, EventRecord> := map[];
      var pendingHead := events.head;
      var pending: seq<Pending> := [];
      ghost var log := events.Log();
      EmptyPlan(log, records);
      var k := 0;
      while k < |records|
        invariant 0 <= k <= |records|
        invariant Planned(log, records, k, pending, pendingCounts, pendingById, pendingHead)
      {
        hide Planned;
        T.AcceptedSnoc(log, records, k);
        var partition := records[k].partition.Normalize();
        var record := records[k].(partition := partition);
        if record.id == E.NoId {
          NotAccepted(log, records, k + 1);
          return Err(MissingEventId);
        }
        E.LookUp(log.stream, events.messages, events.byId, record.id);
        if record.ts <= 0 {
          NotAccepted(log, records, k + 1);
          return Err(MissingTimestamp);
        }
        if record.id in events.byId {
          var existing := events.byId[record.id];
          if existing.partition != partition {
            NotAccepted(log, records, k + 1);
            return Err(DuplicateElsewhere);
          }
          if !E.SameIdentity(existing.data, record) {
            NotAccepted(log, records, k + 1);
            return Err(DuplicateContent);
          }
          PlanStored(log, records, k, pending, pendingCounts, pendingById, pendingHead);
          pending := pending + [Pending(existing, false)];
        } else {
          if record.id in pendingById {
            NotAccepted(log, records, k + 1);
            return Err(if E.SameIdentity(pendingById[record.id],
                                         record) then DuplicateInTransaction else DuplicateContent);
          }
          var offset := OffsetOf(events.tails, partition) + OffsetOf(pendingCounts, partition) + 1;
          if !E.Encodable(record) {
            NotAccepted(log, records, k + 1);
            return Err(Unencodable);
          }
          var m := Message(partition, offset, pendingHead + 1, record.(offset := offset));
          var counts := pendingCounts[partition := OffsetOf(pendingCounts, partition) + 1];
          var ids := pendingById[record.id := record];
          PlanNew(log, records, k, pending, pendingCounts, pendingById, pendingHead, m, counts, ids);
          pendingCounts, pendingById, pendingHead, pending := counts, ids, pendingHead + 1, pending + [Pending(m, true)];
        }
        k := k + 1;
      }
      assert records[..k] == records;
      r := Ok(pending);
    }

    /** Apply a plan: store the new messages in order. */
    method Apply(records: seq<EventRecord>, pending: seq<Pending>) returns (out: seq<EventMessage>)
      requires events.Consistent() && T.RecordsAccepted(events.Log(), records)
      requires T.AppendAll(events.Log(), records).Ok? && |pending| == |records|
      requires forall i :: 0 <= i < |records| ==>
                 pending[i] == Pending(T.AppendAll(events.Log(), records).value.messages[i],
                                       !T.Stored(events.Log(), records[i].id))
      modifies events
      ensures events.Consistent()
      ensures T.AppendAll(old(events.Log()), records) == Ok(T.Batch(events.Log(), out))
    {
      hide E.Valid, E.Indexes, T.RecordsAccepted, T.AppendAll, E.FindId, T.Reached, E.NewMessage;
      ghost var log := events.Log();
      ghost var all := T.AppendAll(log, records).value.messages;
      out := [];
      T.ReachedNone(log, records);
      var i := 0;
      while i < |records|
        invariant 0 <= i <= |records| && events.Consistent()
        invariant T.Reached(log, records, i) == T.Batch(events.Log(), out)
        invariant |out| == i
      {
        T.ReachedStep(log, records, i);
        T.ReachedMessage(log, records, i);
        var m := pending[i].message;
        if pending[i].isNew {
          AcceptedAt(log, records, i);
          E.LookUp(events.stream, events.messages, events.byId, records[i].id);
          NextMessage(events.Log(), records[i]);
          events.Store(m);
        }
        out := out + [m];
        i := i + 1;
      }
      assert records[..i] == records;
    }

    method AppendEventsAndCommitCommands(cancelled: bool, positions: seq<T.CommitPosition>, records: seq<EventRecord>)
      returns (r: Result<Committed>)
      requires Consistent()
      modifies commands, events
      ensures Consistent()
      ensures r.Ok? <==> !cancelled && T.Accepts(old(commands.Log()), old(events.Log()), positions, records)
      ensures r.Err? ==> commands.Log() == old(commands.Log()) && events.Log() == old(events.Log())
      ensures r.Ok? ==> T.AppendAll(old(events.Log()), records) == Ok(T.Batch(events.Log(), r.value.messages))
      ensures r.Ok? ==>
                commands.Log() ==
                old(commands.Log()).(committed := T.CommitAll(old(commands.committed), positions))
      ensures r.Ok? ==> |r.value.commits| == |positions|
                        && forall i :: 0 <= i < |positions| ==>
                            r.value.commits[i] == CommitOf(old(commands.committed), positions, i)
    {
      hide E.Valid, E.Indexes, T.RecordsAccepted, T.AppendAll, C.Valid, C.Indexes, T.CommandAccepted;
      if cancelled {
        return Err(Cancelled);
      }
      var refused := CheckCommands(positions);
      if refused.Some? {
        return Err(refused.value);
      }
      var plan := Plan(records);
      if plan.Err? {
        return Err(plan.error);
      }
      var messages := Apply(records, plan.value);
      var commits := CommitPositions(positions);
      r := Ok(Committed(messages, commits));
    }

    method CheckCommands(positions: seq<T.CommitPosition>) returns (refused: Option<Failure>)
      requires commands.Consistent()
      ensures refused.None? <==> forall i :: 0 <= i < |positions| ==> T.CommandAccepted(commands.Log(), positions[i])
    {
      hide C.Valid;
      var i := 0;
      while i < |positions|
        invariant 0 <= i <= |positions|
        invariant forall j :: 0 <= j < i ==> positions[j].Valid()
      {
        if !positions[i].Valid() {
          return Some(InvalidCommand);
        }
        i := i + 1;
      }
      i := 0;
      while i < |positions|
        invariant 0 <= i <= |positions|
        invariant forall j :: 0 <= j < i ==> T.CommandAccepted(commands.Log(), positions[j])
      {
        var p := positions[i].partition.Normalize();
        assert OffsetOf(commands.tails, p) == commands.Log().Tail(p);
        if positions[i].offset > OffsetOf(commands.tails, p) {
          return Some(BeyondTail);
        }
        i := i + 1;
      }
      return None;
    }

    method CommitPositions(positions: seq<T.CommitPosition>) returns (commits: seq<T.CommitPosition>)
      requires commands.Consistent()
      modifies commands
      ensures commands.Consistent()
      ensures commands.Log() == old(commands.Log()).(committed := T.CommitAll(old(commands.committed), positions))
      ensures |commits| == |positions|
      ensures forall i :: 0 <= i < |positions| ==> commits[i] == CommitOf(old(commands.committed), positions, i)
    {
      hide C.Valid, C.Indexes;
      commits := [];
      ghost var committed := commands.committed;
      var i := 0;
      while i < |positions|
        invariant 0 <= i <= |positions|
        invariant commands.Consistent()
        invariant commands.Log() == old(commands.Log()).(committed := T.CommitAll(committed, positions[..i]))
        invariant |commits| == i
        invariant forall j :: 0 <= j < i ==> commits[j] == CommitOf(committed, positions, j)
      {
        var p := positions[i].partition.Normalize();
        assert positions[..i + 1][..i] == positions[..i];
        commands.CommitPartition(positions[i].partition, positions[i].offset);
        commits := commits + [T.CommitPosition(p, OffsetOf(commands.committed, p), positions[i].source)];
        i := i + 1;
      }
      assert positions[..i] == positions;
    }
  }

  lemma AcceptedAt(log: E.EventLog, records: seq<EventRecord>, i: nat)
    requires T.RecordsAccepted(log, records) && i < |records| && !T.Stored(log, records[i].id)
    ensures records[i].id != E.NoId && E.Encodable(records[i])
  {
    assert T.RecordAccepted(log, records[i]);
  }

  lemma NextMessage(log: E.EventLog, r: EventRecord)
    requires E.Valid(log) && r.id != E.NoId && E.Encodable(r) && E.FindId(log.stream, r.id).None?
    ensures E.Valid(E.Push(log, E.NewMessage(log, T.Request(r))))
    ensures E.NewMessage(log, T.Request(r)).streamSeq == |log.stream| + 1
    ensures E.NewMessage(log, T.Request(r)).data.id == r.id
  {
    hide E.Valid;
    E.PushValid(log, T.Request(r));
  }

  lemma EmptyPlan(log: E.EventLog, records: seq<EventRecord>)
    requires E.Valid(log)
    ensures Planned(log, records, 0, [], map[], map[], |log.stream|)
  {
  }

  function Requests(records: seq<EventRecord>): (r: seq<EventRecord>)
    ensures |r| == |records| && forall i :: 0 <= i < |records| ==> r[i] == T.Request(records[i])
  {
    if records == [] then [] else Requests(records[..|records| - 1]) + [T.Request(records[|records| - 1])]
  }

  /** What the store itself demands of the events, whatever is stored. */
  ghost predicate WellFormed(records: seq<EventRecord>) {
    && (forall i :: 0 <= i < |records| ==> records[i].id != E.NoId && E.Encodable(records[i]) && records[i].ts > 0)
    && T.DistinctIds(records)
  }

  method NormalizeRecords(records: seq<EventRecord>) returns (r: Result<seq<EventRecord>>)
    ensures r.Ok? <==> WellFormed(records)
    ensures r.Ok? ==> r.value == Requests(records)
  {
    hide WellFormed, Requests, T.Requested;
    var normalized: seq<EventRecord> := [];
    NothingWellFormed(records);
    var byId: map<EventId, EventRecord> := map[];
    var k := 0;
    while k < |records|
      invariant 0 <= k <= |records|
      invariant WellFormed(records[..k]) && normalized == Requests(records[..k])
      invariant forall id :: id in byId <==> T.Requested(records[..k], id)
    {
      var record := T.Request(records[k]);
      WellFormedSnoc(records, k);
      if record.id == E.NoId {
        return Err(MissingEventId);
      }
      if !E.Encodable(record) {
        return Err(Unencodable);
      }
      if record.ts <= 0 {
        return Err(MissingTimestamp);
      }
      if record.id in byId {
        return Err(if E.SameIdentity(byId[record.id], record) then DuplicateInTransaction else DuplicateContent);
      }
      forall id ensures T.Requested(records[..k + 1], id) <==> T.Requested(records[..k], id) || records[k].id == id {
        RequestedSnoc(records, k, id);
      }
      RequestsSnoc(records, k);
      byId := byId[record.id := record];
      normalized := normalized + [record];
      k := k + 1;
    }
    assert records[..k] == records;
    r := Ok(normalized);
  }

  lemma NothingWellFormed(records: seq<EventRecord>)
    ensures WellFormed(records[..0]) && Requests(records[..0]) == []
    ensures forall id :: !T.Requested(records[..0], id)
  {
  }

  lemma RequestsSnoc(records: seq<EventRecord>, k: nat)
    requires k < |records|
    ensures Requests(records[..k + 1]) == Requests(records[..k]) + [T.Request(records[k])]
  {
    assert records[..k + 1][..k] == records[..k];
  }

  lemma WellFormedSnoc(records: seq<EventRecord>, k: nat)
    requires k < |records| && WellFormed(records[..k])
    ensures WellFormed(records) ==> WellFormed(records[..k + 1])
    ensures WellFormed(records[..k + 1]) <==>
              && records[k].id != E.NoId && E.Encodable(records[k]) && records[k].ts > 0
              && !T.Requested(records[..k], records[k].id)
  {
    var prefix := records[..k + 1];
    assert prefix == records[..k] + [records[k]];
    if T.Requested(records[..k], records[k].id) {
      var i :| 0 <= i < k && records[..k][i].id == records[k].id;
      assert prefix[i].id == prefix[k].id;
    } else {
      assert forall i :: 0 <= i < k ==> records[..k][i] == prefix[i];
    }
  }

  /** Exactly the requests whose transaction takes effect through the store. */
  ghost predicate StoreAccepts(commands: C.CommandLog, events: E.EventLog, position: T.CommitPosition,
                               records: seq<EventRecord>) {
    T.CommandAccepted(commands, position) && WellFormed(records) && T.RecordsAccepted(events, Requests(records))
  }

  datatype CommitResult = CommitResult(messages: seq<EventMessage>, partition: Partition, offset: int)

  class CommandEventStore {
    const client: MemoryTransactions
    const allowPartitionOnlyEvents: bool

    constructor (client: MemoryTransactions, allowPartitionOnlyEvents: bool)
      ensures this.client == client && this.allowPartitionOnlyEvents == allowPartitionOnlyEvents
    {
      this.client, this.allowPartitionOnlyEvents := client, allowPartitionOnlyEvents;
    }

    /** The transaction takes effect exactly when it is accepted; the answer is an
        error as well when the messages fail the check made after that. */
    method CommitCommandEvents(cancelled: bool, position: T.CommitPosition, records: seq<EventRecord>)
      returns (r: Result<CommitResult>)
      requires client.Consistent()
      modifies client.commands, client.events
      ensures client.Consistent()
      ensures
        var commands, events := old(client.commands.Log()), old(client.events.Log());
        if !cancelled && StoreAccepts(commands, events, position, records) then
          && client.commands.Log() == commands.(committed := C.Commit(commands.committed, position.partition, position.offset))
          && var b := T.AppendAll(events, Requests(records));
          && b.Ok? && client.events.Log() == b.value.log
          && (r.Ok? <==> T.PostCheck(allowPartitionOnlyEvents, Requests(records), b.value.messages))
          && (r.Ok? ==> r.value == CommitResult(b.value.messages, position.partition.Normalize(),
                                                client.commands.Log().Committed(position.partition.Normalize())))
          && (r.Err? ==> r.error == PostCommitCheck)
        else
          r.Err? && client.commands.Log() == commands && client.events.Log() == events
    {
      hide E.Valid, E.Indexes, C.Valid, C.Indexes, T.AppendAll, T.RecordsAccepted, T.PostCheck, WellFormed, Requests;
      if cancelled {
        return Err(Cancelled);
      }
      if !position.Valid() {
        return Err(InvalidCommand);
      }
      var normalized := NormalizeRecords(records);
      if normalized.Err? {
        return Err(normalized.error);
      }
      ghost var committed0 := client.commands.committed;
      var done := client.AppendEventsAndCommitCommands(cancelled, [position], normalized.value);
      if done.Err? {
        assert [position][0] == position;
        return Err(done.error);
      }
      SingleCommit(committed0, position);
      assert done.value.commits[0] == CommitOf(committed0, [position], 0);
      assert [position][0] == position;
      var commit := done.value.commits[0];
      var ok := T.ValidateMessages(allowPartitionOnlyEvents, normalized.value, done.value.messages);
      if !ok {
        return Err(PostCommitCheck);
      }
      r := Ok(CommitResult(done.value.messages, commit.partition, commit.offset));
    }
  }

  /** One command: the commit is the maximum, and never below the request. */
  lemma SingleCommit(committed: map<Partition, int>, position: T.CommitPosition)
    ensures T.CommitAll(committed, [position]) == C.Commit(committed, position.partition, position.offset)
    ensures CommitOf(committed, [position], 0).partition == position.partition.Normalize()
    ensures CommitOf(committed, [position], 0).offset ==
              OffsetOf(C.Commit(committed, position.partition, position.offset),
                       position.partition.Normalize()) >= position.offset
  {
    assert [position][..0] == [] && [position][..1] == [position];
    assert T.CommitAll(committed, [position][..0]) == committed;
  }
}
