/** What a drain tells about its commands: which receipt each of them has afterwards and
    what the counters count, in terms of the commands alone. */
module DrainReceipts {
  import opened LogModel
  import opened BrokerEventLog
  import opened CommandEventTransaction
  import opened Decisions
  import opened DrainModel
  import opened DrainSpec
  import C = BrokerCommandLog
  import S = TransactionStore

  // ---- Any drain ------------------------------------------------------------------------------

  /** A receipt that is true of its command: it asked for a retry, or it is committed and
      was refused for good, or it is committed and was applied with a reply. */
  ghost predicate Says(b: Behaviour, r: C.CommandRecord, receipt: Receipt, log: C.CommandLog) {
    if b.retries(r) then receipt == Retrying
    else
      && r.offset <= log.Committed(r.partition.Normalize())
      && if b.decide(r).Terminal? then receipt == FailedForGood
         else b.reply(r).Some? && receipt.AppliedAt? && b.reply(r).value <= receipt.scalar
  }

  ghost predicate Untouched(before: map<Slot, Receipt>, after: map<Slot, Receipt>, slot: Slot) {
    (slot in before <==> slot in after) && (slot in before ==> after[slot] == before[slot])
  }

  /** Every receipt is the old one, or one of these commands has it and it is true. */
  ghost predicate Truthful(b: Behaviour, before: map<Slot, Receipt>, after: map<Slot, Receipt>,
                           records: seq<C.CommandRecord>, log: C.CommandLog) {
    forall slot :: Untouched(before, after, slot) || ToldOf(b, after, records, log, slot)
  }

  ghost predicate ToldOf(b: Behaviour, after: map<Slot, Receipt>, records: seq<C.CommandRecord>, log: C.CommandLog,
                         slot: Slot) {
    exists i :: 0 <= i < |records| && slot == Slot(records[i].partition, records[i].offset)
                && slot in after && Says(b, records[i], after[slot], log)
  }

  lemma TruthfulSame(b: Behaviour, receipts: map<Slot, Receipt>, records: seq<C.CommandRecord>, log: C.CommandLog)
    ensures Truthful(b, receipts, receipts, records, log)
  {
  }

  lemma TruthfulOn(b: Behaviour, one: map<Slot, Receipt>, two: map<Slot, Receipt>, three: map<Slot, Receipt>,
                   first: seq<C.CommandRecord>, second: seq<C.CommandRecord>, records: seq<C.CommandRecord>,
                   log: C.CommandLog, log': C.CommandLog)
    requires Truthful(b, one, two, first, log) && Truthful(b, two, three, second, log') && NoEarlier(log, log')
    requires forall r :: r in first || r in second ==> r in records
    ensures Truthful(b, one, three, records, log')
  {
    forall slot ensures Untouched(one, three, slot) || ToldOf(b, three, records, log', slot) {
      if ToldOf(b, three, second, log', slot) {
        ToldAmong(b, three, second, records, log', slot);
      } else {
        assert Untouched(two, three, slot);
        if ToldOf(b, two, first, log, slot) {
          ToldLater(b, two, three, first, log, log', slot);
          ToldAmong(b, three, first, records, log', slot);
        }
      }
    }
  }

  lemma ToldAmong(b: Behaviour, after: map<Slot, Receipt>, some: seq<C.CommandRecord>, records: seq<C.CommandRecord>,
                  log: C.CommandLog, slot: Slot)
    requires ToldOf(b, after, some, log, slot) && forall r :: r in some ==> r in records
    ensures ToldOf(b, after, records, log, slot)
  {
    hide Says;
    var i :| 0 <= i < |some| && slot == Slot(some[i].partition, some[i].offset) && slot in after
             && Says(b, some[i], after[slot], log);
    assert some[i] in records;
    var j :| 0 <= j < |records| && records[j] == some[i];
  }

  lemma ToldLater(b: Behaviour, after: map<Slot, Receipt>, after': map<Slot, Receipt>, records: seq<C.CommandRecord>,
                  log: C.CommandLog, log': C.CommandLog, slot: Slot)
    requires ToldOf(b, after, records, log, slot) && Untouched(after, after', slot) && NoEarlier(log, log')
    ensures ToldOf(b, after', records, log', slot)
  {
    var i :| 0 <= i < |records| && slot == Slot(records[i].partition, records[i].offset) && slot in after
             && Says(b, records[i], after[slot], log);
    var p := records[i].partition.Normalize();
    assert log.Committed(p) <= log'.Committed(p);
    assert Says(b, records[i], after'[slot], log');
  }

  /** One receipt. */
  lemma TruthfulOne(b: Behaviour, receipts: map<Slot, Receipt>, r: C.CommandRecord, receipt: Receipt, log: C.CommandLog)
    requires Says(b, r, receipt, log)
    ensures Truthful(b, receipts, receipts[SlotOf(r) := receipt], [r], log)
  {
    var after := receipts[SlotOf(r) := receipt];
    forall slot ensures Untouched(receipts, after, slot) || ToldOf(b, after, [r], log, slot) {
      if slot == SlotOf(r) {
        assert [r][0] == r && Says(b, [r][0], after[slot], log);
      }
    }
  }

  /** The receipt of a committed command. */
  lemma ReceiptSays(b: Behaviour, r: C.CommandRecord, messages: seq<EventMessage>, log: C.CommandLog)
    requires !b.retries(r) && r.offset <= log.Committed(r.partition.Normalize())
    ensures
      var receipt := ReceiptFor(b, r, messages);
      && (receipt.Some? ==> Says(b, r, receipt.value, log))
      && (receipt.None? <==> !b.decide(r).Terminal? && b.reply(r).None?)
  {
  }

  // ---- Several receipts written ----------------------------------------------------------------

  /** One of these commands has the slot, and the receipt is true of it. */
  ghost predicate SaidOf(b: Behaviour, w: Written, records: seq<C.CommandRecord>, log: C.CommandLog) {
    exists i :: 0 <= i < |records| && w.slot == SlotOf(records[i]) && Says(b, records[i], w.receipt, log)
  }

  ghost predicate AllSay(b: Behaviour, writes: seq<Written>, records: seq<C.CommandRecord>, log: C.CommandLog) {
    forall k :: 0 <= k < |writes| ==> SaidOf(b, writes[k], records, log)
  }

  lemma {:induction false} TruthfulAll(b: Behaviour, receipts: map<Slot, Receipt>, writes: seq<Written>,
                                       records: seq<C.CommandRecord>, log: C.CommandLog)
    requires AllSay(b, writes, records, log)
    ensures Truthful(b, receipts, WriteAll(receipts, writes), records, log)
  {
    hide Says;
    if writes == [] {
      TruthfulSame(b, receipts, records, log);
    } else {
      var n := |writes| - 1;
      var init, w := writes[..n], writes[n];
      forall k | 0 <= k < n ensures SaidOf(b, init[k], records, log) {
        assert writes[k] == init[k];
      }
      TruthfulAll(b, receipts, init, records, log);
      assert SaidOf(b, writes[n], records, log);
      var i :| 0 <= i < |records| && w.slot == SlotOf(records[i]) && Says(b, records[i], w.receipt, log);
      var mid := WriteAll(receipts, init);
      TruthfulOne(b, mid, records[i], w.receipt, log);
      assert NoEarlier(log, log);
      TruthfulOn(b, receipts, mid, WriteAll(receipts, writes), records, [records[i]], records, log, log);
    }
  }

  lemma {:induction false} WritesSay(b: Behaviour, records: seq<C.CommandRecord>, messages: seq<EventMessage>, n: nat,
                                     phase: Phase, log: C.CommandLog)
    requires n <= |records| && |messages| == |DecidedEvents(b.decide, records)|
    requires forall i :: 0 <= i < |records| ==>
               !b.retries(records[i]) && records[i].offset <= log.Committed(records[i].partition.Normalize())
    ensures AllSay(b, Writes(b, records, messages, n, phase), records, log)
  {
    hide DecidedEvents, Says, ReceiptFor;
    if n > 0 {
      WritesSay(b, records, messages, n - 1, phase, log);
      EndGrows(b, records, n - 1);
      var r := records[n - 1];
      var mine := messages[EndOf(b, records, n - 1)..EndOf(b, records, n)];
      ReceiptSays(b, r, mine, log);
      var rest, all := Writes(b, records, messages, n - 1, phase), Writes(b, records, messages, n, phase);
      assert all == rest || exists w :: all == rest + [w] && w.slot == SlotOf(r) && Says(b, r, w.receipt, log);
      AllSayOn(b, rest, all, records, n - 1, log);
    }
  }

  lemma AllSayOn(b: Behaviour, rest: seq<Written>, all: seq<Written>, records: seq<C.CommandRecord>, n: nat,
                 log: C.CommandLog)
    requires n < |records| && AllSay(b, rest, records, log)
    requires all == rest || exists w :: all == rest + [w] && w.slot == SlotOf(records[n]) && Says(b, records[n], w.receipt, log)
    ensures AllSay(b, all, records, log)
  {
    hide Says;
    forall k | 0 <= k < |all| ensures SaidOf(b, all[k], records, log) {
      assert k < |rest| ==> all[k] == rest[k] && SaidOf(b, rest[k], records, log);
    }
  }

  // ---- A drain that nothing disturbs -------------------------------------------------------------

  /** One of the events decided for this command has the id. */
  ghost predicate DecidedFor(b: Behaviour, r: C.CommandRecord, id: EventId) {
    exists k :: 0 <= k < |EventsOf(b.decide(r))| && EventsOf(b.decide(r))[k].id == id
  }

  /** The sequence in the receipt of an applied command: that of the reply, or if it has
      none the highest that a stored event of the command carries. */
  ghost predicate RightSequence(b: Behaviour, r: C.CommandRecord, reply: int, s: int, log: EventLog) {
    if reply > 0 then s == reply
    else
      && s >= reply
      && (forall i :: 0 <= i < |log.stream| && log.stream[i].data.id != NoId && DecidedFor(b, r, log.stream[i].data.id) ==>
            exists c :: Carries(log.stream[i], c) && c <= s)
      && (s == reply
          || exists i :: 0 <= i < |log.stream| && Carries(log.stream[i], s) && DecidedFor(b, r, log.stream[i].data.id))
  }

  /** What the receipts say about one finalized command. */
  ghost predicate FinalizedAs(b: Behaviour, r: C.CommandRecord, before: map<Slot, Receipt>, after: map<Slot, Receipt>,
                              log: EventLog) {
    var slot := Slot(r.partition, r.offset);
    if b.decide(r).Terminal? then slot in after && after[slot] == FailedForGood
    else if b.reply(r).None? then Untouched(before, after, slot)
    else slot in after && after[slot].AppliedAt? && RightSequence(b, r, b.reply(r).value, after[slot].scalar, log)
  }

  /** The first n commands were finalized, the next one, if there is one, asked for a
      retry, and nothing else was touched. */
  ghost predicate DrainTells(b: Behaviour, records: seq<C.CommandRecord>, n: nat, before: World, after: World) {
    && n <= |records| && (forall i :: 0 <= i < n ==> !b.retries(records[i]))
    && (forall i :: 0 <= i < n ==> FinalizedAs(b, records[i], before.receipts, after.receipts, after.events))
    && (n < |records| ==>
          var slot := Slot(records[n].partition, records[n].offset);
          b.retries(records[n]) && slot in after.receipts && after.receipts[slot] == Retrying)
    && (forall slot :: (forall i :: 0 <= i < |records| && i <= n ==> slot != Slot(records[i].partition, records[i].offset)) ==>
          Untouched(before.receipts, after.receipts, slot))
  }

  ghost predicate Has(log: EventLog, id: EventId) {
    exists i :: 0 <= i < |log.stream| && log.stream[i].data.id == id
  }

  /** Every event of the decision is stored. */
  ghost predicate AllStored(b: Behaviour, r: C.CommandRecord, log: EventLog) {
    forall k :: 0 <= k < |EventsOf(b.decide(r))| ==> Has(log, EventsOf(b.decide(r))[k].id)
  }

  lemma {:induction false} AppendAllIn(log: EventLog, records: seq<EventRecord>)
    requires Valid(log) && AppendAll(log, records).Ok?
    ensures
      var b := AppendAll(log, records).value;
      && Valid(b.log) && log.stream <= b.log.stream
      && forall k :: 0 <= k < |records| ==> b.messages[k] in b.log.stream && b.messages[k].data.id == records[k].id
  {
    hide Valid, FindId;
    if records != [] {
      var n := |records| - 1;
      AppendAllIn(log, records[..n]);
      var init := AppendAll(log, records[..n]).value;
      AppendEventValid(init.log, records[n].partition, Request(records[n]));
      AppendExtends(init.log, records[n].partition, Request(records[n]));
    }
  }

  lemma AppendExtends(log: EventLog, partition: Partition, record: EventRecord)
    requires Append(log, partition, record).Ok?
    ensures log.stream <= Append(log, partition, record).value.log.stream
    ensures Append(log, partition, record).value.message.data.id == record.id
  {
    hide Valid;
  }

  /** The messages of one transaction give the receipt its sequence. */
  lemma RaisedIsRight(b: Behaviour, r: C.CommandRecord, reply: int, log: EventLog)
    requires Valid(log) && AppendAll(log, S.Requests(EventsOf(b.decide(r)))).Ok?
    ensures
      var a := AppendAll(log, S.Requests(EventsOf(b.decide(r)))).value;
      && RightSequence(b, r, reply, if reply <= 0 then RaisedSeq(reply, a.messages) else reply, a.log)
      && AllStored(b, r, a.log)
  {
    hide Valid, AppendAll, RaisedSeq, S.Requests, Has;
    var events := EventsOf(b.decide(r));
    AppendAllIn(log, S.Requests(events));
    var a := AppendAll(log, S.Requests(events)).value;
    forall k | 0 <= k < |events| ensures a.messages[k] in a.log.stream && a.messages[k].data.id == events[k].id {
      assert S.Requests(events)[k].id == events[k].id;
    }
    forall k | 0 <= k < |events| ensures Has(a.log, events[k].id) {
      HasOf(a.log, a.messages[k]);
    }
    RaisedBounds(b, r, reply, a);
    RaisedAttained(b, r, reply, a);
  }

  /** A transaction's answers: stored messages with the ids of the decision. */
  ghost predicate AnswersOf(b: Behaviour, r: C.CommandRecord, a: Batch) {
    && |a.messages| == |EventsOf(b.decide(r))|
    && forall k :: 0 <= k < |a.messages| ==>
         a.messages[k] in a.log.stream && a.messages[k].data.id == EventsOf(b.decide(r))[k].id
  }

  lemma RaisedBounds(b: Behaviour, r: C.CommandRecord, reply: int, a: Batch)
    requires Valid(a.log) && AnswersOf(b, r, a)
    ensures
      var log, s := a.log, RaisedSeq(reply, a.messages);
      forall i :: 0 <= i < |log.stream| && log.stream[i].data.id != NoId && DecidedFor(b, r, log.stream[i].data.id) ==>
        exists c :: Carries(log.stream[i], c) && c <= s
  {
    hide Valid, RaisedSeq;
    var log, s := a.log, RaisedSeq(reply, a.messages);
    forall i | 0 <= i < |log.stream| && log.stream[i].data.id != NoId && DecidedFor(b, r, log.stream[i].data.id)
      ensures exists c :: Carries(log.stream[i], c) && c <= s
    {
      var k :| 0 <= k < |EventsOf(b.decide(r))| && EventsOf(b.decide(r))[k].id == log.stream[i].data.id;
      SameMessage(log, i, a.messages[k]);
      assert Carries(log.stream[i], EventSeq(a.messages[k]));
    }
  }

  lemma RaisedAttained(b: Behaviour, r: C.CommandRecord, reply: int, a: Batch)
    requires AnswersOf(b, r, a)
    ensures
      var log, s := a.log, RaisedSeq(reply, a.messages);
      s == reply
      || exists i :: 0 <= i < |log.stream| && Carries(log.stream[i], s) && DecidedFor(b, r, log.stream[i].data.id)
  {
    hide RaisedSeq;
    var log, s := a.log, RaisedSeq(reply, a.messages);
    if s != reply {
      var k :| 0 <= k < |a.messages| && EventSeq(a.messages[k]) == s;
      var i :| 0 <= i < |log.stream| && log.stream[i] == a.messages[k];
      assert EventsOf(b.decide(r))[k].id == log.stream[i].data.id;
      assert Carries(log.stream[i], s) && DecidedFor(b, r, log.stream[i].data.id);
    }
  }

  lemma HasOf(log: EventLog, m: EventMessage)
    requires m in log.stream
    ensures Has(log, m.data.id)
  {
    var i :| 0 <= i < |log.stream| && log.stream[i] == m;
  }

  lemma HasStays(log: EventLog, log': EventLog, id: EventId)
    requires Has(log, id) && log.stream <= log'.stream
    ensures Has(log', id)
  {
    var i :| 0 <= i < |log.stream| && log.stream[i].data.id == id;
    assert log'.stream[i] == log.stream[i];
  }

  lemma SameMessage(log: EventLog, i: nat, m: EventMessage)
    requires Valid(log) && i < |log.stream| && m in log.stream && m.data.id == log.stream[i].data.id != NoId
    ensures log.stream[i] == m
  {
    var j :| 0 <= j < |log.stream| && log.stream[j] == m;
  }

  /** What is appended later carries none of these ids. */
  lemma RightStays(b: Behaviour, r: C.CommandRecord, reply: int, s: int, log: EventLog, log': EventLog)
    requires Valid(log') && log.stream <= log'.stream && AllStored(b, r, log) && RightSequence(b, r, reply, s, log)
    ensures RightSequence(b, r, reply, s, log') && AllStored(b, r, log')
  {
    hide Valid, Carries;
    StoredStays(b, r, log, log');
    if reply <= 0 {
      forall i | 0 <= i < |log'.stream| && log'.stream[i].data.id != NoId && DecidedFor(b, r, log'.stream[i].data.id)
        ensures exists c :: Carries(log'.stream[i], c) && c <= s
      {
        var k :| 0 <= k < |EventsOf(b.decide(r))| && EventsOf(b.decide(r))[k].id == log'.stream[i].data.id;
        assert Has(log, EventsOf(b.decide(r))[k].id);
        var j :| 0 <= j < |log.stream| && log.stream[j].data.id == EventsOf(b.decide(r))[k].id;
        assert log'.stream[j] == log.stream[j] && log'.stream[j] in log'.stream;
        SameMessage(log', i, log'.stream[j]);
        assert DecidedFor(b, r, log.stream[j].data.id);
      }
      if s != reply {
        var i :| 0 <= i < |log.stream| && Carries(log.stream[i], s) && DecidedFor(b, r, log.stream[i].data.id);
        assert log'.stream[i] == log.stream[i];
      }
    }
  }

  ghost predicate OnlySlots(before: map<Slot, Receipt>, after: map<Slot, Receipt>, records: seq<C.CommandRecord>) {
    forall slot :: (forall i :: 0 <= i < |records| ==> slot != Slot(records[i].partition, records[i].offset)) ==>
      Untouched(before, after, slot)
  }

  lemma OneTells(b: Behaviour, w: World, r: C.CommandRecord)
    requires Valid(w.events) && FinalizeOne(b, w, r).Ok?
    ensures
      var w' := FinalizeOne(b, w, r).value;
      && Valid(w'.events) && w.events.stream <= w'.events.stream && AllStored(b, r, w'.events)
      && FinalizedAs(b, r, w.receipts, w'.receipts, w'.events) && OnlySlots(w.receipts, w'.receipts, [r])
  {
    hide Valid, AppendAll, RaisedSeq, S.Requests, RightSequence;
    AppendAllIn(w.events, S.Requests(EventsOf(b.decide(r))));
    RaisedIsRight(b, r, if b.reply(r).None? then 0 else b.reply(r).value, w.events);
    var w' := FinalizeOne(b, w, r).value;
    forall slot | forall i :: 0 <= i < |[r]| ==> slot != Slot([r][i].partition, [r][i].offset)
      ensures Untouched(w.receipts, w'.receipts, slot)
    {
      assert slot != Slot([r][0].partition, [r][0].offset);
    }
  }

  lemma {:induction false} EachTells(b: Behaviour, w: World, records: seq<C.CommandRecord>, p: Partition)
    requires Valid(w.events) && Increasing(records, p) && FinalizeEach(b, w, records).Ok?
    ensures
      var w' := FinalizeEach(b, w, records).value;
      && Valid(w'.events) && w.events.stream <= w'.events.stream && OnlySlots(w.receipts, w'.receipts, records)
      && forall i :: 0 <= i < |records| ==>
           FinalizedAs(b, records[i], w.receipts, w'.receipts, w'.events) && AllStored(b, records[i], w'.events)
  {
    hide Valid, FinalizeOne, FinalizedAs, AllStored;
    if records != [] {
      var n := |records| - 1;
      var init, r := records[..n], records[n];
      EachTells(b, w, init, p);
      var w1, w' := FinalizeEach(b, w, init).value, FinalizeEach(b, w, records).value;
      OneTells(b, w1, r);
      forall i | 0 <= i < n
        ensures FinalizedAs(b, records[i], w.receipts, w'.receipts, w'.events) && AllStored(b, records[i], w'.events)
      {
        assert init[i] == records[i];
        OtherSlot(records, p, i, n, w1.receipts, w'.receipts);
        FinalizedStays(b, records[i], w.receipts, w1.receipts, w'.receipts, w1.events, w'.events);
      }
      OnlyMore(w.receipts, w1.receipts, w'.receipts, records);
      var slot := Slot(r.partition, r.offset);
      assert Untouched(w.receipts, w1.receipts, slot) by {
        forall i | 0 <= i < n ensures slot != Slot(init[i].partition, init[i].offset) {
          assert init[i] == records[i];
        }
      }
      FinalizedFrom(b, r, w.receipts, w1.receipts, w'.receipts, w'.events);
    }
  }

  lemma OtherSlot(records: seq<C.CommandRecord>, p: Partition, i: nat, n: nat, before: map<Slot, Receipt>,
                  after: map<Slot, Receipt>)
    requires Increasing(records, p) && i < n < |records| && OnlySlots(before, after, [records[n]])
    ensures Untouched(before, after, Slot(records[i].partition, records[i].offset))
  {
    assert records[i].offset < records[n].offset;
  }

  lemma OnlyMore(one: map<Slot, Receipt>, two: map<Slot, Receipt>, three: map<Slot, Receipt>,
                 records: seq<C.CommandRecord>)
    requires records != [] && OnlySlots(one, two, records[..|records| - 1])
    requires OnlySlots(two, three, [records[|records| - 1]])
    ensures OnlySlots(one, three, records)
  {
    var n := |records| - 1;
    forall slot | forall i :: 0 <= i < |records| ==> slot != Slot(records[i].partition, records[i].offset)
      ensures Untouched(one, three, slot)
    {
      assert slot != Slot(records[n].partition, records[n].offset);
      assert Untouched(two, three, slot);
      assert Untouched(one, two, slot);
    }
  }

  lemma FinalizedStays(b: Behaviour, r: C.CommandRecord, before: map<Slot, Receipt>, mid: map<Slot, Receipt>,
                       after: map<Slot, Receipt>, log: EventLog, log': EventLog)
    requires FinalizedAs(b, r, before, mid, log) && AllStored(b, r, log) && Valid(log') && log.stream <= log'.stream
    requires Untouched(mid, after, Slot(r.partition, r.offset))
    ensures FinalizedAs(b, r, before, after, log') && AllStored(b, r, log')
  {
    hide Valid, RightSequence, AllStored;
    var slot := Slot(r.partition, r.offset);
    if !b.decide(r).Terminal? && b.reply(r).Some? {
      RightStays(b, r, b.reply(r).value, mid[slot].scalar, log, log');
    } else {
      StoredStays(b, r, log, log');
    }
  }

  lemma StoredStays(b: Behaviour, r: C.CommandRecord, log: EventLog, log': EventLog)
    requires AllStored(b, r, log) && log.stream <= log'.stream
    ensures AllStored(b, r, log')
  {
    hide Has;
    forall k | 0 <= k < |EventsOf(b.decide(r))| ensures Has(log', EventsOf(b.decide(r))[k].id) {
      HasStays(log, log', EventsOf(b.decide(r))[k].id);
    }
  }

  lemma FinalizedFrom(b: Behaviour, r: C.CommandRecord, before: map<Slot, Receipt>, mid: map<Slot, Receipt>,
                      after: map<Slot, Receipt>, log: EventLog)
    requires FinalizedAs(b, r, mid, after, log) && Untouched(before, mid, Slot(r.partition, r.offset))
    ensures FinalizedAs(b, r, before, after, log)
  {
    hide RightSequence;
  }

  /** An undisturbed drain without error, in terms of the commands: the first n were
      finalized with their receipts, the one that asked for a retry is recorded as
      retrying, no other receipt changed, and the counters count them. */
  lemma DrainMeans(b: Behaviour, w: World, p: Partition, committed: int, records: seq<C.CommandRecord>)
    returns (n: nat)
    requires Valid(w.events) && Slice(records, p, committed) && DrainOf(b, w, committed, records).Ok?
    ensures
      var o := DrainOf(b, w, committed, records).value;
      DrainTells(b, records, n, w, o.world) && Counts(b, records, n, committed, o.result)
  {
    hide Valid, FinalizeEach, FinalizedAs, AllStored, Applieds, AppliedAmong, TerminalAmong;
    n := Stop(b, records);
    var done := records[..n];
    assert Increasing(done, p);
    EachTells(b, w, done, p);
    var w1 := FinalizeEach(b, w, done).value;
    var w' := DrainOf(b, w, committed, records).value.world;
    AppliedsCount(b, done);
    forall i | 0 <= i < n ensures FinalizedAs(b, records[i], w.receipts, w'.receipts, w'.events) {
      assert done[i] == records[i];
      if n < |records| {
        assert records[i].offset < records[n].offset;
        FinalizedUntouched(b, records[i], w.receipts, w1.receipts, w'.receipts, w1.events);
      }
    }
    forall slot | forall i :: 0 <= i < |records| && i <= n ==> slot != Slot(records[i].partition, records[i].offset)
      ensures Untouched(w.receipts, w'.receipts, slot)
    {
      forall i | 0 <= i < n ensures slot != Slot(done[i].partition, done[i].offset) {
        assert done[i] == records[i];
      }
      assert Untouched(w.receipts, w1.receipts, slot);
    }
  }

  lemma FinalizedUntouched(b: Behaviour, r: C.CommandRecord, before: map<Slot, Receipt>, mid: map<Slot, Receipt>,
                           after: map<Slot, Receipt>, log: EventLog)
    requires FinalizedAs(b, r, before, mid, log) && Untouched(mid, after, Slot(r.partition, r.offset))
    ensures FinalizedAs(b, r, before, after, log)
  {
    hide RightSequence;
  }

  // ---- The counters --------------------------------------------------------------------------------

  ghost function AppliedAmong(b: Behaviour, records: seq<C.CommandRecord>): set<int> {
    set i | 0 <= i < |records| && b.decide(records[i]).Applied?
  }

  ghost function TerminalAmong(b: Behaviour, records: seq<C.CommandRecord>): set<int> {
    set i | 0 <= i < |records| && b.decide(records[i]).Terminal?
  }

  /** The counters of a drain that finalized the first n of these commands. */
  ghost predicate Counts(b: Behaviour, records: seq<C.CommandRecord>, n: nat, committed: int, result: Drained) {
    && n <= |records| && result.started == committed && result.last == committed + n && result.processed == n
    && result.applied == |AppliedAmong(b, records[..n])| && result.terminal == |TerminalAmong(b, records[..n])|
    && result.commitFailures == 0 && (result.retryable <==> n < |records|)
  }

  lemma {:induction false} AppliedsCount(b: Behaviour, records: seq<C.CommandRecord>)
    ensures Applieds(b, records) == |AppliedAmong(b, records)|
    ensures |records| - Applieds(b, records) == |TerminalAmong(b, records)|
  {
    hide AppliedAmong, TerminalAmong;
    if records == [] {
      NoneAmong(b);
    } else {
      AppliedsCount(b, records[..|records| - 1]);
      AppliedLast(b, records);
      TerminalLast(b, records);
    }
  }

  lemma NoneAmong(b: Behaviour)
    ensures AppliedAmong(b, []) == {} && TerminalAmong(b, []) == {}
  {
  }

  lemma AppliedLast(b: Behaviour, records: seq<C.CommandRecord>)
    requires records != []
    ensures
      var n := |records| - 1;
      |AppliedAmong(b, records)| == |AppliedAmong(b, records[..n])| + if b.decide(records[n]).Applied? then 1 else 0
  {
    var n := |records| - 1;
    var some := AppliedAmong(b, records[..n]);
    assert AppliedAmong(b, records) == if b.decide(records[n]).Applied? then some + {n} else some;
    assert n !in some;
  }

  lemma TerminalLast(b: Behaviour, records: seq<C.CommandRecord>)
    requires records != []
    ensures
      var n := |records| - 1;
      |TerminalAmong(b, records)| == |TerminalAmong(b, records[..n])| + if b.decide(records[n]).Terminal? then 1 else 0
  {
    var n := |records| - 1;
    var some := TerminalAmong(b, records[..n]);
    assert TerminalAmong(b, records) == if b.decide(records[n]).Terminal? then some + {n} else some;
    assert n !in some;
  }
}
