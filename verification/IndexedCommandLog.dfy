/** The command log with its index, call by call. */
module IndexedCommandLog {
  import opened LogModel
  import opened MemoryBroker
  import opened PartitionIndex
  import C = BrokerCommandLog

  datatype ListedOffset = ListedOffset(partition: Partition, row: IndexRow)

  class IndexedLog {
    const inner: MemoryCommandLog
    var rows: Index

    constructor (inner: MemoryCommandLog)
      requires inner.Consistent() && inner.stream == []
      ensures this.inner == inner && Sound()
    {
      this.inner, rows := inner, map[];
    }

    ghost predicate Sound()
      reads this, inner
    {
      inner.Consistent() && Trails(rows, inner.Log())
    }

    /** Announce the partition, append, note the tail; either note may fail. */
    method Produce(now: int, record: CommandRecord, announceFails: bool,
                   noteFails: bool) returns (r: Result<CommandMessage>)
      requires Sound()
      modifies this, inner
      ensures Sound() && Grows(old(inner.Log()), inner.Log())
      ensures r.Ok? ==>
                && C.AppendCommand(old(inner.Log()), now, record.partition,
                                   record) == Ok(C.CommandAppended(inner.Log(), r.value))
                && r.value.partition in rows && r.value.offset <= Listed(rows[r.value.partition]).tail
      ensures
        var p, appended := record.partition.Normalize(), C.AppendCommand(old(inner.Log()), now, record.partition, record);
        && (r.Ok? <==> !announceFails && appended.Ok? && !noteFails)
        && inner.Log() == (if !announceFails && appended.Ok? then appended.value.log else old(inner.Log()))
        && (announceFails ==> rows == old(rows))
        && (!announceFails && r.Err? ==> RowRaised(old(rows), rows, p, 0, 0))
        && (r.Ok? ==> r.value == appended.value.message && RowRaised(old(rows), rows, p, r.value.offset, 0))
    {
      hide C.Valid, C.Indexes, Trails, C.AppendCommand, RowRaised;
      if announceFails {
        return Err(CommitFailure);
      }
      TailKeeps(rows, inner.Log(), record.partition, 0);
      TailRaises(rows, inner.Log(), record.partition, 0);
      rows := RecordTail(rows, record.partition, 0);
      ghost var log := inner.Log();
      var produced := inner.AppendCommand(now, record.partition, record);
      if produced.Err? {
        return produced;
      }
      ProduceKeeps(rows, log, now, record);
      if noteFails {
        return Err(CommitFailure);
      }
      var m := produced.value;
      AppendedPlace(log, now, record);
      TailKeeps(rows, inner.Log(), m.partition, m.offset);
      TailRaises(rows, inner.Log(), m.partition, m.offset);
      ghost var announced := rows;
      rows := RecordTail(rows, m.partition, m.offset);
      RaisedOn(old(rows), announced, rows, m.partition, 0, m.offset);
      return produced;
    }

    /** Fetch, then note each record's offset as a tail; a failed note fails the call. */
    method FetchPartition(partition: Partition, afterOffset: int, limit: int,
                          noteFails: int -> bool) returns (r: Result<seq<CommandMessage>>)
      requires Sound()
      modifies this`rows
      ensures Sound()
      ensures
        var p := partition.Normalize();
        var fetched := Limit(After(PartitionOf(inner.stream, p), afterOffset), limit);
        && (r.Ok? ==> r.value == fetched && NotedUpTo(old(rows), rows, p, fetched, |fetched|))
        && (r.Err? ==> exists i :: 0 <= i < |fetched| && noteFails(fetched[i].offset) && NotedUpTo(old(rows), rows, p, fetched, i))
    {
      hide C.Valid, C.Indexes, Trails, After, PartitionOf, RowRaised;
      var messages := inner.FetchCommands(partition, afterOffset, limit);
      FetchSound(inner.Log(), rows, partition.Normalize(), afterOffset, limit);
      FetchPlaces(inner.Log(), partition.Normalize(), afterOffset, limit);
      var i := 0;
      while i < |messages|
        invariant 0 <= i <= |messages| && Sound() && NotedUpTo(old(rows), rows, partition.Normalize(), messages, i)
      {
        var record := messages[i].data;
        if noteFails(record.offset) {
          return Err(CommitFailure);
        }
        TailKeeps(rows, inner.Log(), record.partition, record.offset);
        TailRaises(rows, inner.Log(), record.partition, record.offset);
        ghost var before := rows;
        rows := RecordTail(rows, record.partition, record.offset);
        if i > 0 {
          RaisedOn(old(rows), before, rows, record.partition, messages[i - 1].offset, record.offset);
        }
        i := i + 1;
      }
      r := Ok(messages);
    }

    method CommitPartition(partition: Partition, offset: int, noteFails: bool) returns (error: Option<Failure>)
      requires Sound()
      modifies this, inner
      ensures Sound() && Grows(old(inner.Log()), inner.Log())
      ensures offset <= inner.Log().Committed(partition.Normalize())
      ensures error.None? ==> partition.Normalize() in rows && offset <= rows[partition.Normalize()].committed
      ensures
        var p := partition.Normalize();
        && inner.stream == old(inner.stream) && (error.Some? <==> noteFails)
        && (forall q :: inner.Log().Committed(q) ==
              if q == p && offset > old(inner.Log()).Committed(q) then offset else old(inner.Log()).Committed(q))
        && (error.Some? ==> rows == old(rows)) && (error.None? ==> RowRaised(old(rows), rows, p, 0, offset))
    {
      hide C.Valid, C.Indexes, Trails, RowRaised;
      ghost var log := inner.Log();
      CommitLogKeeps(rows, log, partition, offset);
      inner.CommitPartition(partition, offset);
      C.DenseOf(log, partition.Normalize());
      assert inner.Log() == log.(committed := C.Commit(log.committed, partition, Greater(offset, 0)));
      if noteFails {
        return Some(CommitFailure);
      }
      CommitKeeps(rows, inner.Log(), partition, offset);
      CommitRaises(rows, inner.Log(), partition, offset);
      rows := RecordCommit(rows, partition, offset);
      error := None;
    }

    method ListOffsets() returns (listed: seq<ListedOffset>)
      ensures forall l :: l in listed <==> l.partition in rows && l.row == Listed(rows[l.partition])
    {
      listed := [];
      var rest := rows.Keys;
      while rest != {}
        invariant rest <= rows.Keys
        invariant forall l :: l in listed <==>
                  l.partition in rows && l.partition !in rest && l.row == Listed(rows[l.partition])
        decreases rest
      {
        var p :| p in rest;
        rest := rest - {p};
        listed := listed + [ListedOffset(p, Listed(rows[p]))];
      }
    }

    /** The offset a drain starts from, looked up in the listing: never past a
        command that is not committed. */
    method CommittedOffset(partition: Partition) returns (offset: int)
      requires Sound()
      ensures offset == PartitionIndex.CommittedOffset(rows, partition.Normalize())
      ensures
        var p := partition.Normalize();
        && (p !in rows ==> offset == 0)
        && (p in rows ==> offset <= rows[p].tail && offset <= rows[p].committed
                          && (offset == rows[p].tail || offset == rows[p].committed))
      ensures 0 <= offset <= inner.Log().Committed(partition.Normalize())
      ensures offset <= inner.Log().Tail(partition.Normalize())
    {
      hide C.Valid, C.Indexes;
      var p := partition.Normalize();
      C.DenseOf(inner.Log(), p);
      assert p in rows ==> RowSound(inner.Log(), p, rows[p]);
      var listed := ListOffsets();
      assert p in rows ==> ListedOffset(p, Listed(rows[p])) in listed;
      var i := 0;
      while i < |listed|
        invariant 0 <= i <= |listed| && forall k :: 0 <= k < i ==> listed[k].partition != p
      {
        if listed[i].partition == p {
          assert listed[i] in listed;
          return listed[i].row.committed;
        }
        i := i + 1;
      }
      offset := 0;
    }
  }

  /** The index after the first n of these messages of p were noted. */
  ghost predicate NotedUpTo(before: Index, after: Index, p: Partition, messages: seq<CommandMessage>, n: nat) {
    n <= |messages| && if n == 0 then after == before else RowRaised(before, after, p, messages[n - 1].offset, 0)
  }

  lemma AppendedPlace(log: C.CommandLog, now: int, record: CommandRecord)
    requires C.Valid(log) && C.AppendCommand(log, now, record.partition, record).Ok?
    ensures
      var m := C.AppendCommand(log, now, record.partition, record).value.message;
      m.partition == record.partition.Normalize() && m.offset >= 1
  {
    hide C.Valid;
    C.AppendCommandValid(log, now, record.partition, record);
    var a := C.AppendCommand(log, now, record.partition, record).value;
    StoredOffset(a.log, a.message);
  }

  lemma FetchPlaces(log: C.CommandLog, p: Partition, after: int, limit: int)
    requires C.Valid(log)
    ensures
      var fetched := Limit(After(PartitionOf(log.stream, p), after), limit);
      && (forall i :: 0 <= i < |fetched| ==>
            fetched[i].data.partition == p && p.Normal() && fetched[i].data.offset == fetched[i].offset >= 1)
      && (forall i :: 0 < i < |fetched| ==> fetched[i - 1].offset <= fetched[i].offset)
  {
    hide C.Valid, After, PartitionOf;
    var all := PartitionOf(log.stream, p);
    var past := After(all, after);
    C.DenseOf(log, p);
    assert Dense(all);
    if after >= 0 && after <= |all| {
      AfterFrom(all, after, after);
    } else if after < 0 {
      AfterFrom(all, after, 0);
    } else {
      AfterNone(all, after);
    }
    forall i | 0 <= i < |past|
      ensures past[i].data.partition == p && p.Normal() && past[i].data.offset == past[i].offset >= 1
    {
      AfterMember(all, after, past[i]);
      var k :| 0 <= k < |all| && all[k] == past[i];
      PartitionOfSound(log.stream, p, k);
      StoredOffset(log, past[i]);
    }
  }
}
