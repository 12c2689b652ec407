/** Scalar replay over the broker log: page through every partition, keep what is
    past the sequence and in scope, sort, cut. */
module BrokerReplay {
  import opened LogModel
  import opened MemoryBroker
  import opened DerivedView
  import opened ReplayOrder
  import S = SqlEventLog
  import E = BrokerEventLog

  const PAGE := 100

  /** A decoded broker message. */
  function Decoded(m: EventMessage): S.Row {
    S.Row(E.EventSeq(m), m.data.partition, m.data.offset, m.data)
  }

  predicate Selected(after: int, scopes: Option<seq<string>>, row: S.Row) {
    row.scalar > after && Wanted(scopes, row)
  }

  /** The simple form: filter the stream. */
  function Select(messages: seq<EventMessage>, after: int, scopes: Option<seq<string>>): seq<S.Row> {
    if messages == [] then []
    else
      var row := Decoded(messages[|messages| - 1]);
      Select(messages[..|messages| - 1], after, scopes) + if Selected(after, scopes, row) then [row] else []
  }

  lemma {:induction false} SelectConcat(a: seq<EventMessage>, b: seq<EventMessage>, after: int,
                                        scopes: Option<seq<string>>)
    ensures Select(a + b, after, scopes) == Select(a, after, scopes) + Select(b, after, scopes)
  {
    hide Selected;
    if b == [] {
      assert a + b == a;
    } else {
      var n := |b| - 1;
      assert (a + b)[..|a + b| - 1] == a + b[..n];
      SelectConcat(a, b[..n], after, scopes);
    }
  }

  lemma {:induction false} SelectMembers(messages: seq<EventMessage>, after: int, scopes: Option<seq<string>>, row: S.Row)
    ensures row in Select(messages, after, scopes) <==>
              Selected(after, scopes, row) && exists i :: 0 <= i < |messages| && Decoded(messages[i]) == row
  {
    hide Selected, Decoded;
    if messages != [] {
      var n := |messages| - 1;
      SelectMembers(messages[..n], after, scopes, row);
      if row in Select(messages[..n], after, scopes) {
        var i :| 0 <= i < n && Decoded(messages[..n][i]) == row;
        assert Decoded(messages[i]) == row;
      }
      if i :| 0 <= i < |messages| && Decoded(messages[i]) == row {
        if i < n {
          assert Decoded(messages[..n][i]) == row;
        }
      }
    }
  }

  /** Partition and offset name a stored message. */
  ghost predicate PlacesDiffer(messages: seq<EventMessage>) {
    forall i, j :: 0 <= i < j < |messages| && messages[i].data.partition == messages[j].data.partition ==>
      messages[i].data.offset != messages[j].data.offset
  }

  lemma {:induction false} SelectKeysDiffer(messages: seq<EventMessage>, after: int, scopes: Option<seq<string>>)
    requires PlacesDiffer(messages)
    ensures KeysDiffer(Select(messages, after, scopes))
  {
    hide Selected;
    if messages != [] {
      var n := |messages| - 1;
      var rows := Select(messages[..n], after, scopes);
      SelectKeysDiffer(messages[..n], after, scopes);
      forall k | 0 <= k < |rows| ensures !SameKey(rows[k], Decoded(messages[n])) {
        assert rows[k] in rows;
        SelectMembers(messages[..n], after, scopes, rows[k]);
        var i :| 0 <= i < n && Decoded(messages[..n][i]) == rows[k];
        assert messages[i] == messages[..n][i];
      }
    }
  }

  // ---- All partitions together hold the stream -------------------------------------------

  function Gathered(stream: seq<EventMessage>, partitions: seq<Partition>): seq<EventMessage> {
    if partitions == [] then []
    else Gathered(stream, partitions[..|partitions| - 1]) + PartitionOf(stream, partitions[|partitions| - 1])
  }

  lemma {:induction false} GatheredMembers(stream: seq<EventMessage>, partitions: seq<Partition>, m: EventMessage)
    ensures m in Gathered(stream, partitions) <==> m in stream && m.partition in partitions
  {
    if partitions != [] {
      var n := |partitions| - 1;
      GatheredMembers(stream, partitions[..n], m);
      assert partitions == partitions[..n] + [partitions[n]];
      if m in PartitionOf(stream, partitions[n]) {
        var k :| 0 <= k < |PartitionOf(stream, partitions[n])| && PartitionOf(stream, partitions[n])[k] == m;
        PartitionOfSound(stream, partitions[n], k);
      }
      if m in stream && m.partition == partitions[n] {
        PartitionOfMember(stream, m);
      }
    }
  }

  lemma StreamData(log: E.EventLog, m: EventMessage)
    requires E.Valid(log) && m in log.stream
    ensures m.data.partition == m.partition && m.data.offset == m.offset && m.offset >= 1
    ensures m.partition.Normal() && m.partition in log.tails
  {
    var i :| 0 <= i < |log.stream| && log.stream[i] == m;
    assert E.WellPlaced(log, log.stream[i]);
  }

  lemma {:induction false} GatheredPlaces(log: E.EventLog, partitions: seq<Partition>)
    requires E.Valid(log) && Distinct(partitions)
    ensures PlacesDiffer(Gathered(log.stream, partitions))
  {
    hide E.Valid;
    if partitions != [] {
      var n := |partitions| - 1;
      GatheredPlaces(log, partitions[..n]);
      var init, last := Gathered(log.stream, partitions[..n]), PartitionOf(log.stream, partitions[n]);
      E.PartitionIncreases(log, partitions[n]);
      var all := init + last;
      forall i, j | 0 <= i < j < |all| && all[i].data.partition == all[j].data.partition
        ensures all[i].data.offset != all[j].data.offset
      {
        assert all[i] in all && all[j] in all;
        GatheredMembers(log.stream, partitions, all[i]);
        GatheredMembers(log.stream, partitions, all[j]);
        StreamData(log, all[i]);
        StreamData(log, all[j]);
        if i < |init| <= j {
          assert all[i] in init;
          GatheredMembers(log.stream, partitions[..n], all[i]);
          PartitionOfSound(log.stream, partitions[n], j - |init|);
        }
      }
    }
  }

  lemma StreamPlacesDiffer(log: E.EventLog)
    requires E.Valid(log)
    ensures PlacesDiffer(log.stream)
  {
    forall i, j | 0 <= i < j < |log.stream| && log.stream[i].data.partition == log.stream[j].data.partition
      ensures log.stream[i].data.offset != log.stream[j].data.offset
    {
      assert E.WellPlaced(log, log.stream[i]) && E.WellPlaced(log, log.stream[j]);
    }
  }

  /** Sorting what the partitions gave is sorting the filtered stream. */
  lemma GatheredSorts(log: E.EventLog, partitions: seq<Partition>, after: int, scopes: Option<seq<string>>)
    requires E.Valid(log) && Distinct(partitions) && forall p :: p in log.tails ==> p in partitions
    ensures SortRows(Select(Gathered(log.stream, partitions), after, scopes)) ==
            SortRows(Select(log.stream, after, scopes))
  {
    hide E.Valid, SortRows, Selected, Select, Decoded, Ordered, PlacesDiffer;
    var some, all := Gathered(log.stream, partitions), log.stream;
    GatheredPlaces(log, partitions);
    StreamPlacesDiffer(log);
    SelectKeysDiffer(some, after, scopes);
    SelectKeysDiffer(all, after, scopes);
    SortOrdered(Select(some, after, scopes));
    SortOrdered(Select(all, after, scopes));
    SortMembers(Select(some, after, scopes));
    SortMembers(Select(all, after, scopes));
    forall row ensures row in Select(some, after, scopes) <==> row in Select(all, after, scopes) {
      SelectMembers(some, after, scopes, row);
      SelectMembers(all, after, scopes, row);
      forall m ensures m in some <==> m in all {
        GatheredMembers(log.stream, partitions, m);
        if m in all {
          StreamData(log, m);
        }
      }
      if i :| 0 <= i < |some| && Decoded(some[i]) == row {
        assert some[i] in all;
        var j :| 0 <= j < |all| && all[j] == some[i];
        assert Decoded(all[j]) == row;
      }
      if i :| 0 <= i < |all| && Decoded(all[i]) == row {
        assert all[i] in some;
        var j :| 0 <= j < |some| && some[j] == all[i];
        assert Decoded(some[j]) == row;
      }
    }
    OrderedUnique(SortRows(Select(some, after, scopes)), SortRows(Select(all, after, scopes)));
  }

  // ---- The loops ------------------------------------------------------------------------------

  /** Messages of one partition, from index n on, lie past the offset reached. */
  ghost predicate PagedTo(messages: seq<EventMessage>, n: nat, afterOffset: int) {
    && n <= |messages|
    && (forall i :: 0 <= i < n ==> messages[i].offset <= afterOffset)
    && (forall i :: n <= i < |messages| ==> messages[i].offset > afterOffset)
  }

  /** Take in one page: raise the offset reached, keep what is selected. */
  method TakePage(page: seq<EventMessage>, afterOffset: int, after: int, scopes: Option<seq<string>>)
    returns (events: seq<S.Row>, reached: int)
    ensures events == Select(page, after, scopes)
    ensures reached >= afterOffset && forall i :: 0 <= i < |page| ==> page[i].data.offset <= reached
    ensures reached == afterOffset || exists i :: 0 <= i < |page| && page[i].data.offset == reached
  {
    events, reached := [], afterOffset;
    var i := 0;
    while i < |page|
      invariant 0 <= i <= |page| && events == Select(page[..i], after, scopes)
      invariant reached >= afterOffset && forall k :: 0 <= k < i ==> page[k].data.offset <= reached
      invariant reached == afterOffset || exists k :: 0 <= k < i && page[k].data.offset == reached
    {
      assert page[..i + 1][..i] == page[..i];
      var row := Decoded(page[i]);
      i := i + 1;
      if row.offset > reached {
        reached := row.offset;
      }
      if row.scalar <= after {
        continue;
      }
      if scopes.Some? && !Overlap(row.event.scopes, scopes.value) {
        continue;
      }
      events := events + [row];
    }
    assert page[..i] == page;
  }

  /** Page through one partition; every message is visited once. */
  method ReplayPages(client: MemoryEventLog, p: Partition, after: int,
                     scopes: Option<seq<string>>) returns (events: seq<S.Row>)
    requires client.Consistent() && p.Normal()
    ensures events == Select(PartitionOf(client.stream, p), after, scopes)
  {
    hide E.Valid, PartitionOf, After, E.Indexes, Select, PagedTo, OffsetsIncrease;
    ghost var all := PartitionOf(client.stream, p);
    events := [];
    var afterOffset := 0;
    ghost var n := 0;
    PartitionSound(client.Log(), p);
    PagedNone(all, after, scopes);
    while true
      invariant 0 <= n <= |all| && PagedTo(all, n, afterOffset) && events == Select(all[..n], after, scopes)
      decreases |all| - n
    {
      var page := client.FetchEvents(p, afterOffset, PAGE);
      PageIs(all, n, afterOffset);
      assert page == all[n..n + |page|];
      if |page| == 0 {
        assert all[..n] == all;
        break;
      }
      var more, reached := TakePage(page, afterOffset, after, scopes);
      SelectConcat(all[..n], page, after, scopes);
      assert all[..n] + page == all[..n + |page|];
      PageReached(all, n, page, afterOffset, reached);
      events, afterOffset, n := events + more, reached, n + |page|;
      if |page| < PAGE {
        assert all[..n] == all;
        break;
      }
    }
  }

  lemma PageIs(messages: seq<EventMessage>, n: nat, afterOffset: int)
    requires PagedTo(messages, n, afterOffset)
    ensures After(messages, afterOffset) == messages[n..]
  {
    AfterFrom(messages, afterOffset, n);
  }

  lemma PagedNone(all: seq<EventMessage>, after: int, scopes: Option<seq<string>>)
    requires forall i :: 0 <= i < |all| ==> all[i].offset >= 1
    ensures PagedTo(all, 0, 0) && Select(all[..0], after, scopes) == []
  {
  }

  lemma PageReached(all: seq<EventMessage>, n: nat, page: seq<EventMessage>, afterOffset: int, reached: int)
    requires PagedTo(all, n, afterOffset) && page != [] && n + |page| <= |all| && page == all[n..n + |page|]
    requires OffsetsIncrease(all)
    requires forall i :: 0 <= i < |all| ==> all[i].data.offset == all[i].offset
    requires forall i :: 0 <= i < |page| ==> page[i].data.offset <= reached
    requires reached == afterOffset || exists i :: 0 <= i < |page| && page[i].data.offset == reached
    requires reached >= afterOffset
    ensures PagedTo(all, n + |page|, reached)
  {
    var m := n + |page|;
    forall i | 0 <= i < m ensures all[i].offset <= reached {
      if i >= n {
        assert all[i] == page[i - n];
      }
    }
    forall i | m <= i < |all| ensures all[i].offset > reached {
      if reached != afterOffset {
        var k :| 0 <= k < |page| && page[k].data.offset == reached;
        assert page[k] == all[n + k];
        assert all[n + k].offset < all[i].offset;
      }
    }
  }

  lemma PartitionSound(log: E.EventLog, p: Partition)
    requires E.Valid(log)
    ensures OffsetsIncrease(PartitionOf(log.stream, p))
    ensures forall i :: 0 <= i < |PartitionOf(log.stream, p)| ==>
              PartitionOf(log.stream, p)[i].data.offset == PartitionOf(log.stream, p)[i].offset >= 1
  {
    hide E.Valid;
    E.PartitionIncreases(log, p);
    forall i | 0 <= i < |PartitionOf(log.stream, p)|
      ensures PartitionOf(log.stream, p)[i].data.offset == PartitionOf(log.stream, p)[i].offset >= 1
    {
      PartitionOfSound(log.stream, p, i);
      StreamData(log, PartitionOf(log.stream, p)[i]);
    }
  }

  /** Scalar replay is: filter the whole log by sequence and scope, sort, cut. */
  method Replay(client: MemoryEventLog, after: int, scopes: Option<seq<string>>,
                limit: int) returns (events: seq<S.Row>)
    requires client.Consistent()
    ensures events == ReplayOf(client.stream, after, scopes, limit)
    ensures Replayed(client.stream, after, scopes, limit, events)
  {
    hide E.Valid, E.Indexes, Select, SortRows, Selected, PartitionOf, Replayed;
    ReplayMeans(client.Log(), after, scopes, limit);
    var partitions := client.ListEventPartitions();
    events := [];
    var i := 0;
    NothingSelected(client.stream, partitions, after, scopes);
    while i < |partitions|
      invariant 0 <= i <= |partitions| && events == Select(Gathered(client.stream, partitions[..i]), after, scopes)
    {
      TailNormal(client.Log(), partitions[i]);
      var more := ReplayPages(client, partitions[i].Normalize(), after, scopes);
      assert partitions[..i + 1][..i] == partitions[..i];
      SelectConcat(Gathered(client.stream, partitions[..i]), PartitionOf(client.stream, partitions[i]), after, scopes);
      events := events + more;
      i := i + 1;
    }
    assert partitions[..i] == partitions;
    GatheredSorts(client.Log(), partitions, after, scopes);
    events := SortRows(events);
    if limit > 0 && |events| > limit {
      events := events[..limit];
    }
  }

  lemma NothingSelected(stream: seq<EventMessage>, partitions: seq<Partition>, after: int, scopes: Option<seq<string>>)
    ensures Select(Gathered(stream, partitions[..0]), after, scopes) == []
  {
  }

  lemma TailNormal(log: E.EventLog, p: Partition)
    requires E.Valid(log) && p in log.tails
    ensures p.Normal()
  {
  }

  // ---- What a replay is, message by message ---------------------------------------------------

  function ReplayOf(stream: seq<EventMessage>, after: int, scopes: Option<seq<string>>, limit: int): seq<S.Row> {
    Limit(SortRows(Select(stream, after, scopes)), limit)
  }

  /** The row shows this message: its content and place, and its compatibility sequence or
      else its place in the stream. */
  ghost predicate Shows(m: EventMessage, row: S.Row) {
    && row.event == m.data && row.partition == m.data.partition && row.offset == m.data.offset
    && row.scalar == if m.data.compatibilitySeq > 0 then m.data.compatibilitySeq else m.streamSeq
  }

  /** A stored message that the caller has not seen and asked for. */
  ghost predicate Asked(stream: seq<EventMessage>, after: int, scopes: Option<seq<string>>, row: S.Row) {
    row.scalar > after && InScope(scopes, row.event) && exists i :: 0 <= i < |stream| && Shows(stream[i], row)
  }

  lemma SelectMeans(stream: seq<EventMessage>, after: int, scopes: Option<seq<string>>, row: S.Row)
    ensures row in Select(stream, after, scopes) <==> Asked(stream, after, scopes, row)
  {
    hide Select, InScope, Wanted;
    SelectMembers(stream, after, scopes, row);
    WantedMeans(scopes, row);
    if i :| 0 <= i < |stream| && Decoded(stream[i]) == row {
      assert Shows(stream[i], row);
    }
    if i :| 0 <= i < |stream| && Shows(stream[i], row) {
      assert Decoded(stream[i]) == row;
    }
  }

  /** Every row returned was asked for, each once, by ascending sequence; everything asked
      for is returned unless the limit stopped it, and then what is left out comes no
      earlier than what is returned. */
  ghost predicate Replayed(stream: seq<EventMessage>, after: int, scopes: Option<seq<string>>, limit: int,
                           events: seq<S.Row>) {
    && (forall row :: row in events ==> Asked(stream, after, scopes, row))
    && (forall i, j :: 0 <= i < j < |events| ==> events[i].scalar <= events[j].scalar && events[i] != events[j])
    && (limit > 0 ==> |events| <= limit)
    && (forall row :: Asked(stream, after, scopes, row) && row !in events ==>
          0 < limit == |events| && forall i :: 0 <= i < |events| ==> events[i].scalar <= row.scalar)
  }

  lemma AllOrdered(log: E.EventLog, after: int, scopes: Option<seq<string>>)
    requires E.Valid(log)
    ensures Ordered(SortRows(Select(log.stream, after, scopes)))
    ensures forall row :: row in SortRows(Select(log.stream, after, scopes)) <==> Asked(log.stream, after, scopes, row)
  {
    hide E.Valid, Select, SortRows, Ordered, Asked, PlacesDiffer;
    StreamPlacesDiffer(log);
    SelectKeysDiffer(log.stream, after, scopes);
    SortOrdered(Select(log.stream, after, scopes));
    SortMembers(Select(log.stream, after, scopes));
    forall row ensures row in Select(log.stream, after, scopes) <==> Asked(log.stream, after, scopes, row) {
      SelectMeans(log.stream, after, scopes, row);
    }
  }

  lemma ReplayMeans(log: E.EventLog, after: int, scopes: Option<seq<string>>, limit: int)
    requires E.Valid(log)
    ensures Replayed(log.stream, after, scopes, limit, ReplayOf(log.stream, after, scopes, limit))
  {
    hide E.Valid, Select, SortRows, Asked, Ordered;
    var all, events := SortRows(Select(log.stream, after, scopes)), ReplayOf(log.stream, after, scopes, limit);
    AllOrdered(log, after, scopes);
    forall i, j | 0 <= i < j < |all| ensures all[i].scalar <= all[j].scalar && all[i] != all[j] {
      ByScalar(all, i, j);
    }
    assert forall i :: 0 <= i < |events| ==> events[i] == all[i];
    forall row | Asked(log.stream, after, scopes, row) && row !in events
      ensures 0 < limit == |events| && forall i :: 0 <= i < |events| ==> events[i].scalar <= row.scalar
    {
      var k := CutBehind(all, events, row);
    }
  }

  lemma CutBehind(all: seq<S.Row>, events: seq<S.Row>, row: S.Row) returns (k: nat)
    requires events <= all && row in all && row !in events
    ensures |events| <= k < |all| && all[k] == row
  {
    assert all == events + all[|events|..];
    var i :| 0 <= i < |all| - |events| && all[|events|..][i] == row;
    k := |events| + i;
  }

  lemma ByScalar(rows: seq<S.Row>, i: nat, j: nat)
    requires Ordered(rows) && i < j < |rows|
    ensures rows[i].scalar <= rows[j].scalar && rows[i] != rows[j]
  {
    IndexOrder(rows, i, j);
    BeforeTotal(rows[i], rows[i]);
  }

  /** Replaying from the last returned sequence returns none of those rows again, and the
      two together are everything asked for if and only if the first row that was cut, if
      there is one, has a higher sequence than the last one returned. */
  lemma ResumeExactly(log: E.EventLog, after: int, scopes: Option<seq<string>>, limit: int)
    requires E.Valid(log) && ReplayOf(log.stream, after, scopes, limit) != []
    ensures
      var batch, all := ReplayOf(log.stream, after, scopes, limit), ReplayOf(log.stream, after, scopes, 0);
      var last := batch[|batch| - 1].scalar;
      var rest := ReplayOf(log.stream, last, scopes, 0);
      && (forall row :: row in batch ==> row !in rest)
      && (all == batch + rest <==> (|batch| < |all| ==> all[|batch|].scalar > last))
  {
    hide E.Valid, Select, SortRows, Ordered, InScope;
    var batch, all := ReplayOf(log.stream, after, scopes, limit), ReplayOf(log.stream, after, scopes, 0);
    var n := |batch|;
    var last := batch[n - 1].scalar;
    var rest := ReplayOf(log.stream, last, scopes, 0);
    AllOrdered(log, after, scopes);
    AllOrdered(log, last, scopes);
    assert batch == all[..n] && all == batch + all[n..];
    assert last > after by {
      assert batch[n - 1] in all;
    }
    forall i, j | 0 <= i < j < |all| ensures all[i].scalar <= all[j].scalar && all[i] != all[j] {
      ByScalar(all, i, j);
    }
    forall row | row in batch ensures row !in rest {
      var k :| 0 <= k < n && batch[k] == row;
    }
    if n < |all| ==> all[n].scalar > last {
      forall row ensures row in all[n..] <==> row in rest {
        TailIsRest(log, after, last, scopes, all, n, row);
      }
      OrderedRest(all, n);
      OrderedUnique(all[n..], rest);
    }
    if all == batch + rest && n < |all| {
      assert all[n] == rest[0] && rest[0] in rest;
    }
  }

  lemma OrderedRest(rows: seq<S.Row>, n: nat)
    requires Ordered(rows) && n <= |rows|
    ensures Ordered(rows[n..])
  {
    hide Before;
  }

  lemma TailIsRest(log: E.EventLog, after: int, last: int, scopes: Option<seq<string>>, all: seq<S.Row>, n: nat, row: S.Row)
    requires 0 < n <= |all| && last == all[n - 1].scalar > after && (n < |all| ==> all[n].scalar > last)
    requires forall i, j :: 0 <= i < j < |all| ==> all[i].scalar <= all[j].scalar
    requires forall r :: r in all <==> Asked(log.stream, after, scopes, r)
    ensures row in all[n..] <==> Asked(log.stream, last, scopes, row)
  {
    hide InScope;
    if row in all[n..] {
      var k :| 0 <= k < |all| - n && all[n..][k] == row;
      assert all[n + k] == row && row in all;
      assert all[n].scalar <= all[n + k].scalar;
    }
    if Asked(log.stream, last, scopes, row) {
      assert row in all;
      var k :| 0 <= k < |all| && all[k] == row;
      assert k >= n;
      assert all[n..][k - n] == row;
    }
  }

  /** A row that was cut with the sequence of the last one returned is in neither batch. */
  lemma CutTwinIsLost(log: E.EventLog, after: int, scopes: Option<seq<string>>, limit: int)
    requires E.Valid(log) && ReplayOf(log.stream, after, scopes, limit) != []
    requires
      var batch, all := ReplayOf(log.stream, after, scopes, limit), ReplayOf(log.stream, after, scopes, 0);
      |batch| < |all| && all[|batch|].scalar == batch[|batch| - 1].scalar
    ensures
      var batch, all := ReplayOf(log.stream, after, scopes, limit), ReplayOf(log.stream, after, scopes, 0);
      var lost := all[|batch|];
      && Asked(log.stream, after, scopes, lost) && lost !in batch
      && lost !in ReplayOf(log.stream, batch[|batch| - 1].scalar, scopes, 0)
  {
    hide E.Valid, Select, SortRows, InScope, Ordered;
    var batch, all := ReplayOf(log.stream, after, scopes, limit), ReplayOf(log.stream, after, scopes, 0);
    AllOrdered(log, after, scopes);
    AllOrdered(log, batch[|batch| - 1].scalar, scopes);
    assert all[|batch|] in all;
    forall k | 0 <= k < |batch| ensures batch[k] != all[|batch|] {
      ByScalar(all, k, |batch|);
    }
  }

  /** At an input: two events of different partitions with compatibility sequence 5, and a
      limit of one. */
  lemma TwinSequences(a: EventMessage, b: EventMessage)
    requires a.data.compatibilitySeq == 5 && b.data.compatibilitySeq == 5
    requires a.data.partition == Partition("board", "a") && b.data.partition == Partition("board", "b")
    ensures ReplayOf([a, b], 0, None, 1) == [Decoded(a)] && ReplayOf([a, b], 5, None, 0) == []
  {
    hide SortRows, Select, Decoded;
    TwinsSelected(a, b);
    TwinsSorted(Decoded(a), Decoded(b));
    NothingSorted();
  }

  lemma TwinsSelected(a: EventMessage, b: EventMessage)
    requires a.data.compatibilitySeq == 5 && b.data.compatibilitySeq == 5
    ensures Select([a, b], 0, None) == [Decoded(a), Decoded(b)] && Select([a, b], 5, None) == []
    ensures Decoded(a).scalar == Decoded(b).scalar
    ensures Decoded(a).partition == a.data.partition && Decoded(b).partition == b.data.partition
  {
    assert [a, b][..1] == [a] && [a][..0] == [];
    assert Select([a], 0, None) == [Decoded(a)] && Select([a], 5, None) == [];
  }

  lemma TwinsSorted(x: S.Row, y: S.Row)
    requires x.scalar == y.scalar && x.partition == Partition("board", "a") && y.partition == Partition("board", "b")
    ensures SortRows([x, y]) == [x, y]
  {
    hide Before;
    assert [x, y][..1] == [x] && [x][..0] == [];
    assert SortRows([x]) == [x];
    TwinsOrdered(x, y);
  }

  lemma TwinsOrdered(x: S.Row, y: S.Row)
    requires x.scalar == y.scalar && x.partition == Partition("board", "a") && y.partition == Partition("board", "b")
    ensures Before(x, y) && !Before(y, x)
  {
    assert Less("a", "b");
    BeforeTotal(x, y);
  }

  lemma NothingSorted()
    ensures SortRows([]) == []
  {
  }
}
