/** The command-log worker over the transactional store: per-record drain and
    batch drain, under any loss of ownership, cancellation and interference. */
module CommandLogWorker {
  import opened LogModel
  import opened MemoryBroker
  import opened DrainModel
  import opened DrainSpec
  import opened TransactionStore
  import opened DrainRuns
  import opened DrainReceipts
  import E = BrokerEventLog
  import C = BrokerCommandLog
  import T = CommandEventTransaction
  import D = Decisions
  import X = ExactlyOnce

  /** The loop that lifts a reply's sequence to that of its latest event. */
  method HighestSeq(s: int, messages: seq<EventMessage>) returns (r: int)
    ensures r == RaisedSeq(s, messages)
  {
    r := s;
    var i := 0;
    while i < |messages|
      invariant 0 <= i <= |messages| && r == RaisedSeq(s, messages[..i])
    {
      assert messages[..i + 1][..i] == messages[..i];
      if E.EventSeq(messages[i]) > r {
        r := E.EventSeq(messages[i]);
      }
      i := i + 1;
    }
    assert messages[..i] == messages;
  }

  predicate RecordFits(records: seq<CommandRecord>, i: nat)
    requires i < |records|
  {
    && records[i].partition.Normalize() == records[0].partition.Normalize()
    && records[i].source.ValidFor(records[i].partition, records[i].offset)
    && (i > 0 ==> records[i - 1].offset < records[i].offset)
  }

  /** What a batch must be before anything is decided: one partition, increasing
      offsets, valid source positions. */
  ghost predicate BatchValid(records: seq<CommandRecord>) {
    forall i :: 0 <= i < |records| ==> RecordFits(records, i)
  }

  /** Pairwise: one partition, every later offset higher, and every position valid. */
  lemma BatchMeans(records: seq<CommandRecord>)
    ensures BatchValid(records) <==>
              && (forall i, j :: 0 <= i < j < |records| ==>
                    records[i].partition.Normalize() == records[j].partition.Normalize() && records[i].offset < records[j].offset)
              && (forall i :: 0 <= i < |records| ==>
                    records[i].source == C.NoSource || records[i].source.ValidFor(records[i].partition, records[i].offset))
  {
    if BatchValid(records) {
      forall i, j | 0 <= i < j < |records|
        ensures records[i].partition.Normalize() == records[j].partition.Normalize()
        ensures records[i].offset < records[j].offset
      {
        assert RecordFits(records, i) && RecordFits(records, j);
        LaterIsHigher(records, i, j);
      }
      forall i | 0 <= i < |records|
        ensures records[i].source == C.NoSource || records[i].source.ValidFor(records[i].partition, records[i].offset)
      {
        assert RecordFits(records, i);
      }
    }
  }

  lemma {:induction false} LaterIsHigher(records: seq<CommandRecord>, i: nat, j: nat)
    requires BatchValid(records) && i < j < |records|
    ensures records[i].offset < records[j].offset
  {
    assert RecordFits(records, j);
    if i < j - 1 {
      LaterIsHigher(records, i, j - 1);
    }
  }

  method ValidateBatch(records: seq<CommandRecord>) returns (ok: bool)
    ensures ok <==> BatchValid(records)
  {
    if records == [] {
      return true;
    }
    var partition := records[0].partition.Normalize();
    var lastOffset := records[0].offset - 1;
    var i := 0;
    while i < |records|
      invariant 0 <= i <= |records| && forall j :: 0 <= j < i ==> RecordFits(records, j)
      invariant lastOffset == if i == 0 then records[0].offset - 1 else records[i - 1].offset
    {
      var r := records[i];
      if r.partition.Normalize() != partition || r.offset <= lastOffset || !r.source.ValidFor(r.partition, r.offset) {
        assert !RecordFits(records, i);
        return false;
      }
      lastOffset := r.offset;
      i := i + 1;
    }
    return true;
  }

  /** A record that will be finalized without error, unless the call is cancelled. */
  ghost predicate Welcome(b: Behaviour, w: World, r: CommandRecord) {
    && !b.receiptFails(r)
    && (b.retries(r) || (!b.deciderFails(r) && Passes(w, PositionFor(r), D.EventsOf(b.decide(r)))))
  }

  ghost predicate WelcomeAll(b: Behaviour, w: World, records: seq<CommandRecord>) {
    && records != [] && BatchValid(records)
    && (forall i :: 0 <= i < |records| ==> !b.receiptFails(records[i]) && !b.retries(records[i]) && !b.deciderFails(records[i]))
    && Passes(w, PositionFor(records[|records| - 1]), D.DecidedEvents(b.decide, records))
  }

  class Worker {
    const store: CommandEventStore
    const behaviour: Behaviour
    var receipts: map<Slot, Receipt>

    constructor (store: CommandEventStore, behaviour: Behaviour)
      ensures this.store == store && this.behaviour == behaviour && receipts == map[]
    {
      this.store, this.behaviour, receipts := store, behaviour, map[];
    }

    ghost predicate Consistent()
      reads this, store, store.client, store.client.commands, store.client.events
    {
      store.client.Consistent() && !store.allowPartitionOnlyEvents
    }

    ghost function World(): World
      reads this, store, store.client, store.client.commands, store.client.events
    {
      DrainModel.World(store.client.commands.Log(), store.client.events.Log(), receipts)
    }

    /** A drain that starts here. */
    ghost function JobAt(p: Partition, committed: int, records: seq<CommandRecord>, env: nat -> Tick, flush: Tick): Job
      reads this, store, store.client, store.client.commands, store.client.events
    {
      Job(behaviour, env, p, committed, records, World(), AllQuiet(env, flush))
    }

    /** One transaction through the store. */
    method Commit(cancelled: bool, position: T.CommitPosition,
                  events: seq<EventRecord>) returns (c: Result<CommitResult>)
      requires Consistent()
      modifies store.client.commands, store.client.events
      ensures Consistent()
      ensures NoEarlier(old(World()).commands, World().commands)
      ensures c.Ok? ==> Took(old(World()), World(), position, events, c.value.messages)
      ensures Transacted(cancelled, old(World()), World(), position, events, c.Ok?)
      ensures !cancelled && Passes(old(World()), position, events) ==> c.Ok?
    {
      hide E.Valid, E.Indexes, C.Valid, C.Indexes, T.AppendAll, T.PostCheck, StoreAccepts, Requests;
      c := store.CommitCommandEvents(cancelled, position, events);
      if c.Ok? {
        assert position.partition.Normalize() == c.value.partition;
        assert position.offset <= c.value.offset;
      }
    }

    method FinalizeRecord(r: CommandRecord, cancelled: bool, ghost others: iset<Other>)
      returns (f: Finalized, error: Option<Failure>, ghost calls: seq<Call>)
      requires Consistent()
      modifies this, store.client.commands, store.client.events
      ensures Consistent()
      ensures Accounted(old(World()), World(), r.partition.Normalize(), r.offset, 1, f)
      ensures error.None? ==> CleanOne(behaviour, old(World()), World(), r, f)
      ensures behaviour.retries(r) ==> Bare(World()) == Bare(old(World()))
      ensures Truthful(behaviour, old(receipts), receipts, [r], World().commands)
      ensures Sent(calls) == [] || (!behaviour.retries(r) && Sent(calls) == [r.offset])
      ensures !cancelled && Welcome(behaviour, old(World()), r) ==> error.None?
      ensures r.partition.Normal() ==>
                Traced(behaviour.decide, others, Bare(old(World())), Bare(World()), calls,
                       X.Held(old(World()).commands, r.partition, r.offset - 1, [r]))
    {
      hide E.Valid, E.Indexes, C.Valid, C.Indexes, T.AppendAll, Passes, Took, Transacted, Traced, X.Held, ReceiptFor,
           Truthful,
           Put, Sent;
      var b := behaviour;
      calls := [];
      SentNone();
      TruthfulSame(b, receipts, [r], World().commands);
      TracedSame(b.decide, others, Bare(World()), X.Held(World().commands, r.partition, r.offset - 1, [r]));
      if b.retries(r) {
        if b.receiptFails(r) {
          return AskedToRetry, Some(ReceiptFailure), calls;
        }
        TruthfulOne(b, receipts, r, Retrying, World().commands);
        receipts := receipts[SlotOf(r) := Retrying];
        return AskedToRetry, None, calls;
      }
      if b.decide(r).Applied? && b.deciderFails(r) {
        return Nothing, Some(DecisionFailure), calls;
      }
      ghost var before := World();
      var c := Commit(cancelled, PositionFor(r), D.EventsOf(b.decide(r)));
      calls := [Own(Bare(before), cancelled, PositionFor(r), D.EventsOf(b.decide(r)))];
      SentOne(calls[0]);
      TruthfulSame(b, receipts, [r], World().commands);
      CommitTraced(b, others, before, World(), cancelled, r, c.Ok?);
      if c.Err? {
        return CommitFailed, Some(c.error), calls;
      }
      TookCommits(before, World(), PositionFor(r), D.EventsOf(b.decide(r)), c.value.messages);
      f := CountOf(b, r);
      PutTruthful(b, receipts, r, c.value.messages, World().commands);
      error := RecordReceipt(r, c.value.messages);
      if error.None? {
        TookOne(b, before, World(), r, c.value.messages);
      }
    }

    /** The receipt of one finalized record: a terminal failure, or an applied command
        with the sequence of its latest event. */
    method RecordReceipt(r: CommandRecord, messages: seq<EventMessage>) returns (error: Option<Failure>)
      modifies this`receipts
      ensures receipts == if error.None? then Put(old(receipts), SlotOf(r), ReceiptFor(behaviour, r, messages)) else old(receipts)
      ensures !behaviour.receiptFails(r) ==> error.None?
    {
      hide RaisedSeq;
      var b := behaviour;
      if b.decide(r).Terminal? {
        if b.receiptFails(r) {
          return Some(ReceiptFailure);
        }
        receipts := receipts[SlotOf(r) := FailedForGood];
      } else if b.reply(r).Some? {
        var s := b.reply(r).value;
        if s <= 0 {
          s := HighestSeq(s, messages);
        }
        if b.receiptFails(r) {
          return Some(ReceiptFailure);
        }
        receipts := receipts[SlotOf(r) := AppliedAt(s)];
      }
      error := None;
    }

    /** Decide every record of a batch, keeping where the events of each end. */
    method DecideBatch(records: seq<CommandRecord>)
      returns (events: seq<EventRecord>, ends: seq<nat>, f: Finalized, error: Option<Failure>)
      ensures error.None? ==>
                && events == D.DecidedEvents(behaviour.decide, records) && f == CountAll(behaviour, records)
                && |ends| == |records| && forall i :: 0 <= i < |records| ==> ends[i] == EndOf(behaviour, records, i + 1)
      ensures error.None? ==> forall i :: 0 <= i < |records| ==> !behaviour.retries(records[i])
      ensures (forall i :: 0 <= i < |records| ==> !behaviour.retries(records[i]) && !behaviour.deciderFails(records[i])) ==> error.None?
    {
      hide D.DecidedEvents, Applieds;
      var b := behaviour;
      events, ends, f := [], [], Finalized(0, 0, true, false, 0);
      NoneDecided(b, records);
      var i := 0;
      while i < |records|
        invariant 0 <= i <= |records| && |ends| == i
        invariant events == D.DecidedEvents(b.decide, records[..i]) && f == CountAll(b, records[..i])
        invariant forall j :: 0 <= j < i ==> ends[j] == EndOf(b, records, j + 1) && !b.retries(records[j])
      {
        DecidedSnoc(b.decide, records, i);
        AppliedsSnoc(b, records, i);
        var r := records[i];
        if b.retries(r) {
          return events, ends, f, Some(DecisionFailure);
        }
        if b.decide(r).Terminal? {
          f := f.(terminal := f.terminal + 1);
        } else {
          if b.deciderFails(r) {
            return events, ends, f, Some(DecisionFailure);
          }
          events := events + b.decide(r).events;
          f := f.(applied := f.applied + 1);
        }
        ends := ends + [|events|];
        i := i + 1;
      }
      assert records[..i] == records;
      error := None;
    }

    /** Terminal receipts first, collecting the applied ones, then those. */
    method RecordReceipts(records: seq<CommandRecord>, ends: seq<nat>,
                          messages: seq<EventMessage>) returns (error: Option<Failure>)
      requires |messages| == |D.DecidedEvents(behaviour.decide, records)| && |ends| == |records|
      requires forall i :: 0 <= i < |records| ==> ends[i] == EndOf(behaviour, records, i + 1)
      modifies this`receipts
      ensures error.None? ==>
                receipts == WriteAll(WriteAll(old(receipts), Writes(behaviour, records, messages, |records|, Failures)),
                                     Writes(behaviour, records, messages, |records|, Successes))
      ensures PartlyWritten(behaviour, old(receipts), receipts, records, messages)
      ensures (forall i :: 0 <= i < |records| ==> !behaviour.receiptFails(records[i])) ==> error.None?
    {
      hide D.DecidedEvents, WriteAll, RaisedSeq, Writes, PartlyWritten, Recording, EndOf;
      var b := behaviour;
      var applied: seq<Written> := [];
      var appliedRecords: seq<CommandRecord> := [];
      RecordingStarts(b, receipts, records, messages);
      var i := 0;
      while i < |records|
        invariant 0 <= i <= |records| && |appliedRecords| == |applied|
        invariant Recording(b, old(receipts), receipts, records, messages, i, applied)
        invariant forall k :: 0 <= k < |appliedRecords| ==> appliedRecords[k] in records
      {
        var r := records[i];
        RecordingStep(b, old(receipts), receipts, records, messages, ends, i, applied);
        if b.decide(r).Terminal? {
          if b.receiptFails(r) {
            return Some(ReceiptFailure);
          }
          receipts := receipts[SlotOf(r) := FailedForGood];
        } else if b.reply(r).Some? {
          var s := b.reply(r).value;
          if s <= 0 {
            s := HighestSeq(s, messages[StartOf(ends, i)..ends[i]]);
          }
          applied := applied + [Written(SlotOf(r), AppliedAt(s))];
          appliedRecords := appliedRecords + [r];
        }
        i := i + 1;
      }
      ghost var n, mid := 0, receipts;
      error, n := WriteApplied(applied, appliedRecords);
      RecordingEnds(b, old(receipts), mid, receipts, records, messages, applied, n);
    }

    method WriteApplied(applied: seq<Written>, appliedRecords: seq<CommandRecord>)
      returns (error: Option<Failure>, ghost n: nat)
      requires |appliedRecords| == |applied|
      modifies this`receipts
      ensures n <= |applied| && receipts == WriteAll(old(receipts), applied[..n])
      ensures error.None? ==> receipts == WriteAll(old(receipts), applied)
      ensures (forall k :: 0 <= k < |appliedRecords| ==> !behaviour.receiptFails(appliedRecords[k])) ==> error.None?
    {
      hide WriteAll;
      NothingWritten(receipts);
      var k := 0;
      while k < |applied|
        invariant 0 <= k <= |applied|
        invariant receipts == WriteAll(old(receipts), applied[..k])
      {
        if behaviour.receiptFails(appliedRecords[k]) {
          return Some(ReceiptFailure), k;
        }
        WriteStep(old(receipts), applied, k);
        receipts := receipts[applied[k].slot := applied[k].receipt];
        k := k + 1;
      }
      assert applied[..k] == applied;
      return None, k;
    }

    method FinalizeBatch(records: seq<CommandRecord>, cancelled: bool, ghost others: iset<Other>)
      returns (f: Finalized, error: Option<Failure>, ghost calls: seq<Call>)
      requires Consistent() && records != []
      modifies this, store.client.commands, store.client.events
      ensures Consistent()
      ensures var last := records[|records| - 1];
              Accounted(old(World()), World(), last.partition.Normalize(), last.offset, |records|, f)
      ensures error.None? ==> CleanAll(behaviour, old(World()), World(), records, f)
      ensures receipts == old(receipts) || PartlyFinalized(behaviour, old(World()), World(), records)
      ensures Truthful(behaviour, old(receipts), receipts, records, World().commands)
      ensures Sent(calls) == [] || Sent(calls) == [records[|records| - 1].offset]
      ensures !cancelled && WelcomeAll(behaviour, old(World()), records) ==> error.None?
      ensures records[|records| - 1].partition.Normal() ==>
                Traced(behaviour.decide, others, Bare(old(World())), Bare(World()), calls,
                       X.Held(old(World()).commands, records[|records| - 1].partition, records[0].offset - 1, records))
    {
      hide E.Valid, E.Indexes, C.Valid, C.Indexes, T.AppendAll, Passes, Took, Transacted, D.DecidedEvents, BatchValid,
           WriteAll, Writes,
           Traced, X.Held, Sent, PartlyWritten, PartlyFinalized, Truthful;
      var b := behaviour;
      calls := [];
      SentNone();
      TruthfulSame(b, receipts, records, World().commands);
      var last := records[|records| - 1];
      TracedSame(b.decide, others, Bare(World()), X.Held(World().commands, last.partition, records[0].offset - 1, records));
      var valid := ValidateBatch(records);
      if !valid {
        return Nothing, Some(InvalidCommand), calls;
      }
      var events, ends, counted, refused := DecideBatch(records);
      if refused.Some? {
        return Nothing, refused, calls;
      }
      ghost var before := World();
      var c := Commit(cancelled, PositionFor(last), events);
      calls := [Own(Bare(before), cancelled, PositionFor(last), events)];
      SentOne(calls[0]);
      TruthfulSame(b, receipts, records, World().commands);
      BatchTraced(b, others, before, World(), cancelled, records, c.Ok?);
      if c.Err? {
        return CommitFailed, Some(c.error), calls;
      }
      TookCommits(before, World(), PositionFor(last), events, c.value.messages);
      f := counted;
      error := RecordReceipts(records, ends, c.value.messages);
      BatchTruthful(b, before.receipts, receipts, records, c.value.messages, World().commands);
      TookPart(b, before, World(), records, c.value.messages);
      if error.None? {
        TookAll(b, before, World(), records, c.value.messages);
      }
    }

    /** Finalize one record under the heartbeat and take the outcome over. */
    method FinalizeStep(p: Partition, r: CommandRecord, tick: Tick, result: Drained, ghost others: iset<Other>)
      returns (s: Step, ghost calls: seq<Call>)
      requires Consistent() && p.Normal() && r.partition == p && Balanced(World(), p, result)
      requires Among(tick.others, others)
      modifies this, store.client.commands, store.client.events
      ensures Consistent()
      ensures Finalizes(behaviour, old(World()), World(), p, r, result, s, Sent(calls), tick == Quiet)
      ensures tick == Quiet && Welcome(behaviour, old(World()), r) ==> s.error.None?
      ensures Truthful(behaviour, old(receipts), receipts, [r], World().commands)
      ensures Traced(behaviour.decide, others, Bare(old(World())), Bare(World()), calls,
                     X.Held(old(World()).commands, p, r.offset - 1, [r]))
    {
      hide E.Valid, E.Indexes, C.Valid, C.Indexes, Passes, FinalizeOne, Observe, Settle, Add, Advance, Traced, X.Held,
           Sent;
      ghost var w0 := World();
      ghost var foreign := Interleave(store, tick.others, behaviour.decide, others);
      ghost var before := World();
      HeldTraced(behaviour.decide, others, Bare(w0), Bare(before), foreign, true, p, r.offset - 1, [r]);
      assert Balanced(before, p, result);
      var f, error, own := FinalizeRecord(r, tick.cancelledInFlight, others);
      calls := foreign + own;
      SentOn(foreign, own);
      TracedThen(behaviour.decide, others, Bare(w0), Bare(before), Bare(World()), foreign, own,
                 X.Held(before.commands, p, r.offset - 1, [r]), X.Held(w0.commands, p, r.offset - 1, [r]));
      s := Settle(result, Observe(tick.finalizing, f, error), r.offset, 1, tick.recording);
      SettleAccounts(before, World(), p, result, tick.finalizing, f, error, r.offset, 1, tick.recording);
      SettleOne(behaviour, before, World(), result, f, error, r, tick.finalizing, tick.recording);
    }

    /** The simple drain: one transaction per record. */
    method DrainEach(p: Partition, committed: int, records: seq<CommandRecord>, env: nat -> Tick,
                     ghost others: iset<Other>)
      returns (result: Drained, error: Option<Failure>, ghost calls: seq<Call>)
      requires Consistent() && p.Normal() && committed <= World().commands.Committed(p)
      requires forall i :: 0 <= i < |records| ==> records[i].partition == p
      requires AmongAll(env, others)
      modifies this, store.client.commands, store.client.events
      ensures Consistent()
      ensures
        var job := old(JobAt(p, committed, records, env, Quiet));
        && Finished(job, World(), 1, result, error, Sent(calls))
        && (job.quiet && Undisturbed(job) ==> error.None?)
        && Traced(behaviour.decide, others, Bare(job.start), Bare(World()), calls, Handed(job))
        && (job.Sliced() ==> Stopped(job, others, World()))
        && Truthful(behaviour, old(receipts), receipts, records, World().commands)
    {
      hide E.Valid, E.Indexes, C.Valid, C.Indexes, Underway, Finished, Finalizes, PollRecord, Undisturbed, Welcome,
           Traced, Handed, X.Held,
           Sent, Among, AmongAll, AllQuiet, Stopped, Truthful;
      ghost var job := JobAt(p, committed, records, env, Quiet);
      result, calls := Drained(committed, committed, 0, 0, 0, 0, false), [];
      SentNone();
      Underway0(job);
      TruthfulSame(behaviour, receipts, records, World().commands);
      TracedSame(behaviour.decide, others, Bare(job.start), Handed(job));
      var k := 0;
      while k < |records|
        invariant 0 <= k <= |records| && Consistent()
        invariant Underway(job, World(), k, result, Sent(calls))
        invariant Truthful(behaviour, old(receipts), receipts, records, World().commands)
        invariant Traced(behaviour.decide, others, Bare(job.start), Bare(World()), calls, Handed(job))
      {
        ghost var w := World();
        if job.quiet {
          QuietAt(env, Quiet, k);
        }
        AmongAt(env, others, k);
        UnderwayPoll(job, w, k, result, Sent(calls));
        if job.quiet && Undisturbed(job) {
          StillWelcome(job, w, k, result, Sent(calls));
        }
        var poll := PollRecord(env(k), result.last, records[k]);
        if poll.Halt? {
          FinishedStops(job, others, w, 1, result, poll.error, calls);
          return result, poll.error, calls;
        }
        if poll.Go? {
          GoIsFit(env(k), result.last, records[k]);
          UnderwayBalanced(job, w, k, result, Sent(calls));
          TracedRecord(job, others, w, k, result, calls);
          var s, more := FinalizeStep(p, records[k], env(k), result, others);
          TracedCommits(behaviour.decide, others, Bare(w), Bare(World()), more,
                        X.Held(w.commands, p, records[k].offset - 1, [records[k]]));
          TruthfulOn(behaviour, old(receipts), w.receipts, receipts, records, [records[k]], records, w.commands,
                     World().commands);
          UnderwayStep(job, w, World(), k, result, s, Sent(calls), Sent(more));
          SentOn(calls, more);
          TracedOn(behaviour.decide, others, Bare(job.start), Bare(w), Bare(World()), calls, more, Handed(job),
                   X.Held(w.commands, p, records[k].offset - 1, [records[k]]));
          result, calls := s.result, calls + more;
          if !s.go {
            FinishedStops(job, others, World(), 1, result, s.error, calls);
            return result, s.error, calls;
          }
        }
        k := k + 1;
      }
      UnderwayEnds(job, World(), result, Sent(calls));
      FinishedStops(job, others, World(), 1, result, None, calls);
      error := None;
    }

    /** Finalize what was gathered, in one transaction. */
    method Flush(p: Partition, pending: seq<CommandRecord>, tick: Tick, result: Drained, ghost others: iset<Other>)
      returns (s: Step, ghost calls: seq<Call>)
      requires Consistent() && p.Normal() && Balanced(World(), p, result) && Among(tick.others, others)
      requires forall i :: 0 <= i < |pending| ==> pending[i].partition == p
      modifies this, store.client.commands, store.client.events
      ensures Consistent()
      ensures Flushes(behaviour, old(World()), World(), p, pending, result, s, Sent(calls), tick == Quiet)
      ensures tick == Quiet && (pending == [] || WelcomeAll(behaviour, old(World()), pending)) ==> s.error.None?
      ensures Truthful(behaviour, old(receipts), receipts, pending, World().commands)
      ensures Traced(behaviour.decide, others, Bare(old(World())), Bare(World()), calls,
                     pending == [] || X.Held(old(World()).commands, p, pending[0].offset - 1, pending))
    {
      hide E.Valid, E.Indexes, C.Valid, C.Indexes, FinalizeAll, Observe, Settle, Add, Advance, WelcomeAll, CountAll,
           Traced, X.Held, Sent;
      ghost var w0 := World();
      if pending == [] {
        SentNone();
        TracedSame(behaviour.decide, others, Bare(w0), true);
        return Step(result, true, None), [];
      }
      ghost var foreign := Interleave(store, tick.others, behaviour.decide, others);
      ghost var before := World();
      HeldTraced(behaviour.decide, others, Bare(w0), Bare(before), foreign, true, p, pending[0].offset - 1, pending);
      assert Balanced(before, p, result);
      var f, error, own := FinalizeBatch(pending, tick.cancelledInFlight, others);
      calls := foreign + own;
      SentOn(foreign, own);
      TracedThen(behaviour.decide, others, Bare(w0), Bare(before), Bare(World()), foreign, own,
                 X.Held(before.commands, p, pending[0].offset - 1, pending), X.Held(w0.commands, p, pending[0].offset - 1, pending));
      var offset := pending[|pending| - 1].offset;
      s := Settle(result, Observe(tick.finalizing, f, error), offset, |pending|, tick.recording);
      SettleAccounts(before, World(), p, result, tick.finalizing, f, error, offset, |pending|, tick.recording);
      SettleAll(behaviour, before, World(), result, f, error, pending, tick.finalizing, tick.recording);
    }

    /** Finalize what was gathered from the first k records. */
    method FlushGathered(ghost job: Job, p: Partition, ghost k: nat, pending: seq<CommandRecord>,
                         ghost pendingLast: int, committed: int, flush: Tick,
                         ghost others: iset<Other>)
      returns (s: Step, ghost calls: seq<Call>)
      requires Consistent() && job.b == behaviour && job.start == World() && job.p == p && p.Normal()
      requires job.committed == committed
      requires committed <= World().commands.Committed(p) && Gathered(job, k, pending, pendingLast)
      requires Among(flush.others, others) && (job.quiet ==> flush == Quiet)
      modifies this, store.client.commands, store.client.events
      ensures Consistent() && (s.go ==> s.error.None?)
      ensures if s.go then Underway(job, World(), k, s.result, Sent(calls))
              else Finished(job, World(), |job.records|, s.result, s.error, Sent(calls))
      ensures job.quiet && Undisturbed(job) ==> s.error.None?
      ensures Truthful(behaviour, old(receipts), receipts, job.records, World().commands)
      ensures Traced(behaviour.decide, others, Bare(job.start), Bare(World()), calls, Handed(job))
    {
      hide E.Valid, E.Indexes, C.Valid, C.Indexes, Underway, Finished, Flushes, Undisturbed, WelcomeAll, Gathered,
           Traced, Handed, X.Held,
           Sent, Among;
      var started := Drained(committed, committed, 0, 0, 0, 0, false);
      if Undisturbed(job) {
        FlushWelcome(job, k, pending, pendingLast);
      }
      GatheredIn(job, k, pending, pendingLast);
      TracedGathered(job, k, pending, pendingLast);
      ghost var before := receipts;
      s, calls := Flush(p, pending, flush, started, others);
      TruthfulAmong(behaviour, before, receipts, pending, job.records, World().commands);
      TracedGiven(behaviour.decide, others, Bare(job.start), Bare(World()), calls,
                  pending == [] || X.Held(job.start.commands, p, pending[0].offset - 1, pending), Handed(job));
      FlushUnderway(job, World(), k, pending, pendingLast, s, Sent(calls), flush == Quiet);
      FlushGoes(behaviour, job.start, World(), p, pending, started, s, Sent(calls), flush == Quiet);
    }

    /** Finalize what was gathered, then the retryable record that stopped it. */
    method FlushAndRetry(ghost job: Job, k: nat, r: CommandRecord, tick: Tick, pending: seq<CommandRecord>,
                         ghost pendingLast: int,
                         committed: int, flush: Tick, ghost others: iset<Other>)
      returns (result: Drained, error: Option<Failure>, ghost calls: seq<Call>)
      requires Consistent() && job.b == behaviour && job.start == World() && job.p.Normal()
      requires job.committed == committed
      requires committed <= World().commands.Committed(job.p) && Gathered(job, k, pending, pendingLast)
      requires k < |job.records| && r == job.records[k] && tick == job.env(k) && r.partition == job.p
      requires behaviour.retries(r)
      requires PollRecord(tick, pendingLast, r).Go? && (job.quiet ==> flush == Quiet && tick == Quiet)
      requires Among(flush.others, others) && Among(tick.others, others)
      modifies this, store.client.commands, store.client.events
      ensures Consistent()
      ensures Finished(job, World(), |job.records|, result, error, Sent(calls))
      ensures job.quiet && Undisturbed(job) ==> error.None?
      ensures Traced(behaviour.decide, others, Bare(job.start), Bare(World()), calls, Handed(job))
      ensures job.Sliced() ==> Stopped(job, others, World())
      ensures Truthful(behaviour, old(receipts), receipts, job.records, World().commands)
    {
      hide E.Valid, E.Indexes, C.Valid, C.Indexes, Underway, Finished, Finalizes, PollRecord, Undisturbed, Welcome,
           Gathered, Unfit,
           Accountable, Traced, Handed, X.Held, Sent, Among, Stopped;
      var s, first := FlushGathered(job, r.partition, k, pending, pendingLast, committed, flush, others);
      if s.error.Some? || !s.go {
        FinishedStops(job, others, World(), |job.records|, s.result, s.error, first);
        return s.result, s.error, first;
      }
      ghost var w := World();
      if Undisturbed(job) {
        RetryWelcome(job, w, r);
      }
      GoIsFit(tick, pendingLast, r);
      UnderwayBalanced(job, w, k, s.result, Sent(first));
      TracedRecord(job, others, w, k, s.result, first);
      var s', more := FinalizeStep(r.partition, r, tick, s.result, others);
      TracedCommits(behaviour.decide, others, Bare(w), Bare(World()), more,
                    X.Held(w.commands, job.p, r.offset - 1, [r]));
      TruthfulOn(behaviour, old(receipts), w.receipts, receipts, job.records, [r], job.records, w.commands,
                 World().commands);
      calls := first + more;
      SentOn(first, more);
      TracedOn(behaviour.decide, others, Bare(job.start), Bare(w), Bare(World()), first, more, Handed(job),
               X.Held(w.commands, job.p, r.offset - 1, [r]));
      UnderwayStep(job, w, World(), k, s.result, s', Sent(first), Sent(more));
      RetryEnds(job, w, World(), k, s.result, s', Sent(first), Sent(more));
      FinishedStops(job, others, World(), |job.records|, s'.result, s'.error, calls);
      return s'.result, s'.error, calls;
    }

    /** The fast drain: gather replies, then one transaction; a retryable record is
        finalized on its own after what came before it. */
    method DrainBatch(p: Partition, committed: int, records: seq<CommandRecord>, env: nat -> Tick, flush: Tick,
                      ghost others: iset<Other>)
      returns (result: Drained, error: Option<Failure>, ghost calls: seq<Call>)
      requires Consistent() && p.Normal() && committed <= World().commands.Committed(p)
      requires forall i :: 0 <= i < |records| ==> records[i].partition == p
      requires Among(flush.others, others) && AmongAll(env, others)
      modifies this, store.client.commands, store.client.events
      ensures Consistent()
      ensures
        var job := old(JobAt(p, committed, records, env, flush));
        && Finished(job, World(), |records|, result, error, Sent(calls))
        && (job.quiet && Undisturbed(job) ==> error.None?)
        && Traced(behaviour.decide, others, Bare(job.start), Bare(World()), calls, Handed(job))
        && (job.Sliced() ==> Stopped(job, others, World()))
        && Truthful(behaviour, old(receipts), receipts, records, World().commands)
    {
      hide E.Valid, E.Indexes, C.Valid, C.Indexes, Underway, Finished, PollRecord, Undisturbed, Gathered, Accountable,
           Traced, Handed,
           Sent, Among, AmongAll, AllQuiet, X.Held, Stopped;
      ghost var job := JobAt(p, committed, records, env, flush);
      if job.quiet {
        QuietAt(env, flush, 0);
      }
      result, calls := Drained(committed, committed, 0, 0, 0, 0, false), [];
      var pending: seq<CommandRecord>, pendingLast := [], committed;
      StartGather(job);
      var k := 0;
      while k < |records|
        invariant 0 <= k <= |records| && Gathered(job, k, pending, pendingLast)
        invariant Consistent() && World() == job.start && calls == []
      {
        if job.quiet {
          QuietAt(env, flush, k);
        }
        AmongAt(env, others, k);
        Gather(job, k, pending, pendingLast);
        if Undisturbed(job) {
          FlushWelcome(job, k, pending, pendingLast);
        }
        var r := records[k];
        var poll := PollRecord(env(k), pendingLast, r);
        if poll.Halt? {
          GatheredHalts(job, k, pending, pendingLast);
          SentNone();
          TracedSame(behaviour.decide, others, Bare(job.start), Handed(job));
          TruthfulSame(behaviour, receipts, records, World().commands);
          FinishedStops(job, others, job.start, |records|, result, poll.error, calls);
          return result, poll.error, calls;
        }
        if poll.Go? {
          if behaviour.retries(r) {
            result, error, calls := FlushAndRetry(job, k, r, env(k), pending, pendingLast, committed, flush, others);
            return;
          }
          pending, pendingLast := pending + [r], r.offset;
        }
        k := k + 1;
      }
      var s, own := FlushGathered(job, p, k, pending, pendingLast, committed, flush, others);
      if s.go {
        UnderwayEnds(job, World(), s.result, Sent(own));
        FinishedWider(job, World(), s.result, None, Sent(own));
      }
      FinishedStops(job, others, World(), |records|, s.result, s.error, own);
      return s.result, s.error, own;
    }

    /** Read the committed offset, fetch after it, drain in either form. */
    method DrainPartition(partition: Partition, limit: int, batched: bool, others: seq<Other>, env: nat -> Tick, flush: Tick)
      returns (result: Drained, error: Option<Failure>, records: seq<CommandRecord>, ghost calls: seq<Call>)
      requires Consistent()
      modifies this, store.client.commands, store.client.events
      ensures Consistent()
      ensures Accountable(World(), partition.Normalize(), result, if batched then |records| else 1, error)
      ensures others == [] ==> records == Fetched(old(World()), partition.Normalize(), limit)
      ensures others == [] && AllQuiet(env, flush) && error.None? ==>
                DrainOf(behaviour, old(World()), old(World()).commands.Committed(partition.Normalize()), records)
                == Ok(Outcome(World(), result))
      ensures (others == [] && AllQuiet(env, flush) && Faultless(behaviour) && D.Stable(behaviour.decide)
               && X.Settled(behaviour.decide, old(World()).commands, old(World()).events, partition.Normalize())) ==>
                   error.None?
      ensures Truthful(behaviour, old(receipts), receipts, records, World().commands)
      ensures others == [] && AllQuiet(env, flush) && error.None? ==>
                exists n :: && DrainTells(behaviour, records, n, old(World()), World())
                            && Counts(behaviour, records, n, old(World()).commands.Committed(partition.Normalize()), result)
      ensures Traced(behaviour.decide, Given(others, env, flush), Bare(old(World())), Bare(World()), calls, true)
      ensures forall i :: 0 <= i < |records| && Stops(behaviour, env(i), records[i]) ==>
                HeldBack(Given(others, env, flush), partition.Normalize(), World().commands, Sent(calls),
                         records[i].offset)
      ensures (D.Stable(behaviour.decide)
               && LawfulAt(behaviour.decide, Bare(old(World())), Given(others, env, flush))) ==>
                Follows(behaviour.decide, Bare(old(World())), Bare(World()))
    {
      hide E.Valid, E.Indexes, C.Valid, C.Indexes, Accountable, NoneAtOrPast, DrainOf, D.Stable, X.Settled, D.Slice,
           Undisturbed,
           Faultless, Finished, After, PartitionOf, Limit, D.Data, Traced, Handed, Given, Sent, Stops, HeldBack,
           LawfulAt, Follows, AllQuiet, AmongAll,
           Among;
      var p := partition.Normalize();
      ghost var w0, given := World(), Given(others, env, flush);
      var committed := OffsetOf(store.client.commands.committed, p);
      GivenAmong(others, env, flush);
      ghost var foreign := Interleave(store, others, behaviour.decide, given);
      var messages := store.client.commands.FetchCommands(p, committed, limit);
      records := D.Data(messages);
      C.DenseOf(w0.commands, p);
      FetchedSlice(World(), p, committed, limit);
      ghost var job, own;
      if batched {
        job := JobAt(p, committed, records, env, flush);
        FetchedReady(job, limit, others == []);
        result, error, own := DrainBatch(p, committed, records, env, flush, given);
        FinishedMeans(job, World(), |records|, result, error, Sent(own));
      } else {
        job := JobAt(p, committed, records, env, Quiet);
        if AllQuiet(env, flush) {
          QuietAlone(env, flush);
        }
        FetchedReady(job, limit, others == []);
        result, error, own := DrainEach(p, committed, records, env, given);
        FinishedMeans(job, World(), 1, result, error, Sent(own));
      }
      calls := foreign + own;
      SentOn(foreign, own);
      assert Sent(calls) == Sent(own);
      FetchTraced(job, given, Bare(World()), limit, own);
      TracedOn(behaviour.decide, given, Bare(w0), Bare(job.start), Bare(World()), foreign, own, true, true);
      if others == [] && AllQuiet(env, flush) && error.None? {
        ghost var n := DrainMeans(behaviour, w0, p, committed, records);
      }
      TracedHoldsBack(job, given, w0, World(), calls);
      TracedFollows(behaviour.decide, given, Bare(w0), Bare(World()), calls);
    }

    /** A drain in a system that a run has brought here: if the calls that other processes
        make are lawful, the run goes on to where the drain ends, and exactly once in
        order holds there. */
    method DrainInRun(partition: Partition, limit: int, batched: bool, others: seq<Other>, env: nat -> Tick, flush: Tick,
                      ghost states: seq<X.State>)
      returns (result: Drained, error: Option<Failure>, ghost states': seq<X.State>)
      requires Consistent() && D.Stable(behaviour.decide) && Ends(behaviour.decide, states, Bare(World()))
      requires LawfulAt(behaviour.decide, Bare(World()), Given(others, env, flush))
      modifies this, store.client.commands, store.client.events
      ensures Consistent() && Continues(behaviour.decide, states, states', Bare(World()))
      ensures forall p ::
                && 0 <= World().commands.Committed(p) <= World().commands.Tail(p)
                && D.Origin(World().events.stream, p) ==
                   D.DecidedEvents(behaviour.decide, D.Commands(World().commands, p)[..World().commands.Committed(p)])
    {
      hide E.Valid, E.Indexes, C.Valid, C.Indexes, Accountable, DrainOf, D.Stable, X.Settled, Faultless, Traced, Given,
           HeldBack, LawfulAt,
           Ends, Lawful, Continues, D.DecidedEvents, D.Origin, Follows, Fetched;
      ghost var w0 := Bare(World());
      var records;
      ghost var calls;
      result, error, records, calls := DrainPartition(partition, limit, batched, others, env, flush);
      InputsLawful(behaviour.decide, Given(others, env, flush), w0, Bare(World()), calls, true);
      states' := DrainAmongOthers(behaviour.decide, Given(others, env, flush), states, w0, Bare(World()), calls);
    }
  }

  /** Nothing happens beside the drain. */
  ghost predicate AllQuiet(env: nat -> Tick, flush: Tick) {
    flush == Quiet && forall i :: env(i) == Quiet
  }

  lemma QuietAt(env: nat -> Tick, flush: Tick, k: nat)
    requires AllQuiet(env, flush)
    ensures flush == Quiet && env(k) == Quiet
  {
  }

  lemma QuietAlone(env: nat -> Tick, flush: Tick)
    requires AllQuiet(env, flush)
    ensures AllQuiet(env, Quiet)
  {
  }

  ghost predicate AmongAll(env: nat -> Tick, others: iset<Other>) {
    forall i: nat :: Among(env(i).others, others)
  }

  lemma AmongAt(env: nat -> Tick, others: iset<Other>, k: nat)
    requires AmongAll(env, others)
    ensures Among(env(k).others, others)
  {
  }

  /** All these calls are among those given. */
  ghost predicate Among(calls: seq<Other>, others: iset<Other>) {
    forall i :: 0 <= i < |calls| ==> calls[i] in others
  }

  /** Every call that other processes make around a drain. */
  ghost function Given(others: seq<Other>, env: nat -> Tick, flush: Tick): iset<Other> {
    iset other | other in others || other in flush.others || exists i: nat :: other in env(i).others
  }

  lemma GivenAmong(others: seq<Other>, env: nat -> Tick, flush: Tick)
    ensures Among(others, Given(others, env, flush)) && Among(flush.others, Given(others, env, flush))
    ensures AmongAll(env, Given(others, env, flush))
  {
  }

  /** The committed offset of p lies before this one, and so does everything the worker
      sent, unless another process's call put the committed offset where it is. */
  ghost predicate HeldBack(others: iset<Other>, p: Partition, log: C.CommandLog, sent: seq<int>, offset: int) {
    && (forall j :: 0 <= j < |sent| ==> sent[j] < offset)
    && (log.Committed(p) < offset || exists other :: other in others && CommitsAt(other, p, log.Committed(p)))
  }

  lemma TracedHoldsBack(job: Job, others: iset<Other>, w0: World, w: World, calls: seq<Call>)
    requires Traced(job.b.decide, others, Bare(w0), Bare(w), calls, true) && NoneAtOrPast(job, Sent(calls))
    requires job.Sliced() && w0.commands.Committed(job.p) == job.committed
    ensures forall i :: 0 <= i < |job.records| && Stops(job.b, job.env(i), job.records[i]) ==>
              HeldBack(others, job.p, w.commands, Sent(calls), job.records[i].offset)
  {
    hide Traced, Sent, CommitsAt, Stops;
    var whole := job.(start := w0);
    assert NoneAtOrPast(whole, Sent(calls)) by {
      assert forall i :: 0 <= i < |job.records| ==> whole.StopsAt(i) == job.StopsAt(i);
    }
    TracedStops(whole, others, w, calls, true);
    forall i | 0 <= i < |job.records| && Stops(job.b, job.env(i), job.records[i])
      ensures HeldBack(others, job.p, w.commands, Sent(calls), job.records[i].offset)
    {
      assert job.StopsAt(i) && whole.StopsAt(i);
      assert StoppedAt(whole, others, w, i);
    }
  }

  lemma TracedFollows(decide: D.Decider, others: iset<Other>, w: World, w': World, calls: seq<Call>)
    requires Traced(decide, others, w, w', calls, true)
    ensures D.Stable(decide) && LawfulAt(decide, w, others) ==> Follows(decide, w, w')
  {
    hide Follows, Lawful, LawfulAt, Noted, Chain, X.Grows;
    if LawfulAt(decide, w, others) {
      InputsLawful(decide, others, w, w', calls, true);
    }
  }

  ghost function FetchedAfter(w: World, p: Partition, committed: int, limit: int): seq<CommandRecord> {
    D.Data(Limit(After(PartitionOf(w.commands.stream, p), committed), limit))
  }

  ghost function Fetched(w: World, p: Partition, limit: int): seq<CommandRecord> {
    FetchedAfter(w, p, w.commands.Committed(p), limit)
  }

  /** A fetch hands over consecutive records of the partition. */
  lemma FetchedSlice(w: World, p: Partition, committed: int, limit: int)
    requires C.Valid(w.commands) && committed >= 0
    ensures D.Slice(FetchedAfter(w, p, committed, limit), p, committed)
    ensures forall i :: 0 <= i < |FetchedAfter(w, p, committed, limit)| ==>
              FetchedAfter(w, p, committed, limit)[i].partition == p
  {
    hide C.Valid, D.Data, After, PartitionOf;
    var messages := PartitionOf(w.commands.stream, p);
    C.DenseOf(w.commands, p);
    X.AllPlaced(w.commands, p);
    if committed <= |messages| {
      X.DenseFetch(messages, committed);
      X.DataSlice(messages, committed, limit);
    } else {
      assert Dense(messages);
      AfterNone(messages, committed);
    }
  }

  lemma FetchedReady(job: Job, limit: int, alone: bool)
    requires C.Valid(job.start.commands) && E.Valid(job.start.events) && job.p.Normal()
    requires job.records == FetchedAfter(job.start, job.p, job.committed, limit)
    requires alone ==> job.committed == job.start.commands.Committed(job.p)
    ensures (alone && D.Stable(job.b.decide) && Faultless(job.b)
             && X.Settled(job.b.decide, job.start.commands, job.start.events, job.p)) ==> Undisturbed(job)
  {
    hide C.Valid, E.Valid, D.Stable, D.Data, After, PartitionOf;
    if alone && X.Settled(job.b.decide, job.start.commands, job.start.events, job.p) {
      X.FetchHolds(job.start.commands, job.p, job.committed, limit);
    }
  }

  lemma FinishedMeans(job: Job, w: World, n: int, result: Drained, error: Option<Failure>, sent: seq<int>)
    requires Finished(job, w, n, result, error, sent) && job.Sliced()
    ensures Accountable(w, job.p, result, n, error) && NoneAtOrPast(job, sent)
    ensures job.quiet && error.None? ==> DrainOf(job.b, job.start, job.committed, job.records) == Ok(Outcome(w, result))
  {
  }

  /** What was sent explains the committed offset. */
  lemma FinishedStops(job: Job, others: iset<Other>, w: World, n: int, result: Drained, error: Option<Failure>,
                      calls: seq<Call>)
    requires Finished(job, w, n, result, error, Sent(calls))
    requires Traced(job.b.decide, others, Bare(job.start), Bare(w), calls, Handed(job))
    ensures job.Sliced() ==> Stopped(job, others, w)
  {
    hide Traced, Handed, Stopped, Sent, DrainOf, Accountable, NoneAtOrPast;
    if job.Sliced() {
      TracedStops(job, others, w, calls, Handed(job));
    }
  }

  lemma RetryWelcome(job: Job, w: World, r: CommandRecord)
    requires Undisturbed(job) && job.b.retries(r)
    ensures Welcome(job.b, w, r)
  {
  }

  lemma StartGather(job: Job)
    ensures Gathered(job, 0, [], job.committed)
  {
  }

  lemma GatheredIn(job: Job, k: nat, pending: seq<CommandRecord>, last: int)
    requires Gathered(job, k, pending, last)
    ensures forall i :: 0 <= i < |pending| ==> pending[i].partition == job.p && pending[i] in job.records
  {
  }

  lemma FlushGoes(b: Behaviour, w: World, w': World, p: Partition, pending: seq<CommandRecord>, result: Drained, s: Step,
                  sent: seq<int>, quiet: bool)
    requires Flushes(b, w, w', p, pending, result, s, sent, quiet)
    ensures s.go ==> s.error.None?
  {
  }

  lemma RetryEnds(job: Job, w: World, w': World, k: nat, result: Drained, s: Step, sent: seq<int>, more: seq<int>)
    requires k < |job.records| && job.b.retries(job.records[k])
    requires Finalizes(job.b, w, w', job.p, job.records[k], result, s, more, job.env(k) == Quiet)
    requires !s.go ==> Finished(job, w', 1, s.result, s.error, sent + more)
    ensures Finished(job, w', |job.records|, s.result, s.error, sent + more)
  {
  }

  lemma FlushWelcome(job: Job, k: nat, pending: seq<CommandRecord>, last: int)
    requires Gathered(job, k, pending, last) && Undisturbed(job)
    ensures job.Sliced() && (pending == [] || WelcomeAll(job.b, job.start, pending))
  {
    hide Ready, Passes, D.DecidedEvents;
    ReadySlice(job.b, job.start, job.p, job.records);
    if k > 0 {
      ReadyPasses(job.b, job.start, job.p, job.records, k);
      assert forall j :: 0 <= j < k ==> !job.StopsAt(j) ==> !job.b.retries(job.records[j]);
      assert BatchValid(job.records[..k]);
    }
  }

  /** Nothing goes wrong around the worker, and it starts from a settled state. */
  ghost predicate Undisturbed(job: Job) {
    && Faultless(job.b) && Ready(job.b, job.start, job.p, job.records)
    && job.committed == job.start.commands.Committed(job.p)
  }

  lemma StillWelcome(job: Job, w: World, k: nat, result: Drained, sent: seq<int>)
    requires Underway(job, w, k, result, sent) && k < |job.records| && Undisturbed(job) && job.quiet
    ensures job.Sliced() && Welcome(job.b, w, job.records[k])
  {
    hide Ready, Passes, Progress;
    ReadySlice(job.b, job.start, job.p, job.records);
    ProgressReady(job.b, job.start, w, job.p, job.records, k, result);
  }

  lemma UnderwayBalanced(job: Job, w: World, k: nat, result: Drained, sent: seq<int>)
    requires Underway(job, w, k, result, sent)
    ensures Balanced(w, job.p, result)
  {
  }

  /** The rest of the system moves: commands are enqueued, other workers commit. */
  method Interleave(store: CommandEventStore, moves: seq<Other>, ghost decide: D.Decider, ghost others: iset<Other>)
    returns (ghost calls: seq<Call>)
    requires store.client.Consistent() && !store.allowPartitionOnlyEvents && Among(moves, others)
    modifies store.client.commands, store.client.events
    ensures store.client.Consistent()
    ensures NoEarlier(old(store.client.commands.Log()), store.client.commands.Log())
    ensures moves == [] ==> LogsOf(store) == old(LogsOf(store))
    ensures Traced(decide, others, old(LogsOf(store)), LogsOf(store), calls, true)
    ensures Sent(calls) == [] && |calls| == |moves| && forall i :: 0 <= i < |moves| ==>
              calls[i].Foreign? && calls[i].other == moves[i]
  {
    hide E.Valid, E.Indexes, C.Valid, C.Indexes, StoreAccepts, T.AppendAll, T.PostCheck, C.AppendCommand, Requests,
         Traced, Moved, Sent;
    calls := [];
    SentNone();
    TracedSame(decide, others, LogsOf(store), true);
    var i := 0;
    while i < |moves|
      invariant 0 <= i <= |moves| && store.client.Consistent()
      invariant Traced(decide, others, old(LogsOf(store)), LogsOf(store), calls, true)
      invariant Sent(calls) == [] && |calls| == i && forall j :: 0 <= j < i ==>
                calls[j].Foreign? && calls[j].other == moves[j]
      invariant i == 0 ==> LogsOf(store) == old(LogsOf(store))
    {
      ghost var before := LogsOf(store);
      match moves[i] {
        case Enqueue(now, partition, record) =>
          var r := store.client.commands.AppendCommand(now, partition, record);
          EnqueueMoved(before, LogsOf(store), now, partition, record);
        case Transact(position, events) =>
          var r := store.CommitCommandEvents(false, position, events);
          TransactMoved(before, LogsOf(store), position, events, r.Ok?);
        case Move(partition, offset) =>
          store.client.commands.CommitPartition(partition, offset);
          MoveMoved(before, LogsOf(store), partition, offset);
      }
      ghost var call := Foreign(before, moves[i]);
      MovedTraced(decide, others, before, LogsOf(store), moves[i]);
      SentOn(calls, [call]);
      SentOne(call);
      TracedOn(decide, others, old(LogsOf(store)), before, LogsOf(store), calls, [call], true, true);
      calls := calls + [call];
      i := i + 1;
    }
    TracedCommits(decide, others, old(LogsOf(store)), LogsOf(store), calls, true);
  }

  ghost function LogsOf(store: CommandEventStore): World
    reads store, store.client, store.client.commands, store.client.events
  {
    World(store.client.commands.Log(), store.client.events.Log(), map[])
  }

  lemma EnqueueMoved(w: World, w': World, now: int, partition: Partition, record: CommandRecord)
    requires
      var r := C.AppendCommand(w.commands, now, partition, record);
      w' == w.(commands := if r.Ok? then r.value.log else w.commands)
    ensures Moved(w, w', Enqueue(now, partition, record))
  {
    hide C.AppendCommand;
  }

  lemma TransactMoved(w: World, w': World, position: T.CommitPosition, events: seq<EventRecord>, ok: bool)
    requires Transacted(false, w, w', position, events, ok)
    ensures Moved(w, w', Transact(position, events))
  {
    hide Transacted;
  }

  lemma MoveMoved(w: World, w': World, partition: Partition, offset: int)
    requires w' == w.(commands := w.commands.(committed := C.Commit(w.commands.committed, partition, offset)))
    ensures Moved(w, w', Move(partition, offset))
  {
  }

  lemma TracedCommits(decide: D.Decider, others: iset<Other>, w: World, w': World, calls: seq<Call>, given: bool)
    requires Traced(decide, others, w, w', calls, given)
    ensures NoEarlier(w.commands, w'.commands)
  {
    hide Follows, Lawful, Chain, Noted;
  }

  /** The worker's own call for one record, and for a batch. */
  lemma CommitTraced(b: Behaviour, others: iset<Other>, w: World, w': World, cancelled: bool, r: CommandRecord, ok: bool)
    requires Transacted(cancelled, w, w', PositionFor(r), D.EventsOf(b.decide(r)), ok)
    ensures r.partition.Normal() ==>
              Traced(b.decide, others, Bare(w), Bare(w'), [Own(Bare(w), cancelled, PositionFor(r), D.EventsOf(b.decide(r)))],
                     X.Held(w.commands, r.partition, r.offset - 1, [r]))
  {
    hide Traced, X.Held, Transacted;
    D.DecidedSingle(b.decide, r);
    BareTransacted(cancelled, w, w', PositionFor(r), D.EventsOf(b.decide(r)), ok);
    if r.partition.Normal() {
      OwnTraced(b.decide, others, Bare(w), Bare(w'), cancelled, r.partition, [r], ok);
    }
  }

  lemma BatchTraced(b: Behaviour, others: iset<Other>, w: World, w': World, cancelled: bool,
                    records: seq<CommandRecord>, ok: bool)
    requires records != []
    requires Transacted(cancelled, w, w', PositionFor(records[|records| - 1]), D.DecidedEvents(b.decide, records), ok)
    ensures
      var last := records[|records| - 1];
      last.partition.Normal() ==>
        Traced(b.decide, others, Bare(w), Bare(w'),
               [Own(Bare(w), cancelled, PositionFor(last), D.DecidedEvents(b.decide, records))],
               X.Held(w.commands, last.partition, records[0].offset - 1, records))
  {
    hide Traced, X.Held, Transacted;
    var last := records[|records| - 1];
    BareTransacted(cancelled, w, w', PositionFor(last), D.DecidedEvents(b.decide, records), ok);
    if last.partition.Normal() {
      OwnTraced(b.decide, others, Bare(w), Bare(w'), cancelled, last.partition, records, ok);
    }
  }

  lemma BareTransacted(cancelled: bool, w: World, w': World, position: T.CommitPosition, events: seq<EventRecord>, ok: bool)
    requires Transacted(cancelled, w, w', position, events, ok)
    ensures Transacted(cancelled, Bare(w), Bare(w'), position, events, ok)
  {
    hide T.AppendAll, StoreAccepts, Requests, T.PostCheck;
  }

  /** First the others, then the worker's own call. */
  lemma TracedThen(decide: D.Decider, others: iset<Other>, a: World, b: World, c: World, first: seq<Call>,
                   second: seq<Call>,
                   later: bool, given: bool)
    requires Traced(decide, others, a, b, first, true) && Traced(decide, others, b, c, second, later)
    requires (given ==> later)
    ensures Traced(decide, others, a, c, first + second, given)
  {
    hide Traced;
    TracedGiven(decide, others, a, b, first, true, given);
    TracedOn(decide, others, a, b, c, first, second, given, later);
  }

  lemma NoneDecided(b: Behaviour, records: seq<CommandRecord>)
    ensures D.DecidedEvents(b.decide, records[..0]) == [] && Applieds(b, records[..0]) == 0
  {
  }

  lemma AppliedsSnoc(b: Behaviour, records: seq<CommandRecord>, i: nat)
    requires i < |records|
    ensures Applieds(b, records[..i + 1]) == Applieds(b, records[..i]) + if b.decide(records[i]).Terminal? then 0 else 1
  {
    assert records[..i + 1][..i] == records[..i];
  }

  lemma WriteStep(receipts: map<Slot, Receipt>, writes: seq<Written>, k: nat)
    requires k < |writes|
    ensures WriteAll(receipts, writes[..k + 1]) == WriteAll(receipts, writes[..k])[writes[k].slot := writes[k].receipt]
  {
    assert writes[..k + 1][..k] == writes[..k];
  }

  lemma PutTruthful(b: Behaviour, receipts: map<Slot, Receipt>, r: CommandRecord, messages: seq<EventMessage>,
                    log: C.CommandLog)
    requires !b.retries(r) && r.offset <= log.Committed(r.partition.Normalize())
    ensures Truthful(b, receipts, Put(receipts, SlotOf(r), ReceiptFor(b, r, messages)), [r], log)
    ensures Truthful(b, receipts, receipts, [r], log)
  {
    hide Truthful, ReceiptFor, Says;
    ReceiptSays(b, r, messages, log);
    TruthfulSame(b, receipts, [r], log);
    if ReceiptFor(b, r, messages).Some? {
      TruthfulOne(b, receipts, r, ReceiptFor(b, r, messages).value, log);
    }
  }

  lemma TruthfulAmong(b: Behaviour, before: map<Slot, Receipt>, after: map<Slot, Receipt>, some: seq<CommandRecord>,
                      records: seq<CommandRecord>, log: C.CommandLog)
    requires Truthful(b, before, after, some, log) && forall i :: 0 <= i < |some| ==> some[i] in records
    ensures Truthful(b, before, after, records, log)
  {
    hide ToldOf, Untouched;
    forall slot ensures Untouched(before, after, slot) || ToldOf(b, after, records, log, slot) {
      if ToldOf(b, after, some, log, slot) {
        ToldAmong(b, after, some, records, log, slot);
      }
    }
  }

  /** What a batch writes, in full or in part, is true of its commands. */
  lemma BatchTruthful(b: Behaviour, before: map<Slot, Receipt>, after: map<Slot, Receipt>, records: seq<CommandRecord>,
                      messages: seq<EventMessage>, log: C.CommandLog)
    requires |messages| == |D.DecidedEvents(b.decide, records)| && BatchValid(records) && records != []
    requires PartlyWritten(b, before, after, records, messages)
    requires forall i :: 0 <= i < |records| ==> !b.retries(records[i])
    requires var last := records[|records| - 1];
             last.offset <= log.Committed(last.partition.Normalize())
    ensures Truthful(b, before, after, records, log)
  {
    hide D.DecidedEvents, Writes, WriteAll, AllSay, Truthful;
    forall i | 0 <= i < |records| ensures records[i].offset <= log.Committed(records[i].partition.Normalize()) {
      BatchIncreases(records, i);
    }
    var n := |records|;
    var failures, successes := Writes(b, records, messages, n, Failures), Writes(b, records, messages, n, Successes);
    WritesSay(b, records, messages, n, Failures, log);
    WritesSay(b, records, messages, n, Successes, log);
    if i :| 0 <= i <= n && after == WriteAll(before, Writes(b, records, messages, i, Failures)) {
      WritesSay(b, records, messages, i, Failures, log);
      TruthfulAll(b, before, Writes(b, records, messages, i, Failures), records, log);
    } else {
      var k :| 0 <= k <= |successes| && after == WriteAll(WriteAll(before, failures), successes[..k]);
      TruthfulAll(b, before, failures, records, log);
      SayPrefix(b, successes, k, records, log);
      TruthfulAll(b, WriteAll(before, failures), successes[..k], records, log);
      assert NoEarlier(log, log);
      TruthfulOn(b, before, WriteAll(before, failures), after, records, records, records, log, log);
    }
  }

  lemma SayPrefix(b: Behaviour, writes: seq<Written>, k: nat, records: seq<CommandRecord>, log: C.CommandLog)
    requires AllSay(b, writes, records, log) && k <= |writes|
    ensures AllSay(b, writes[..k], records, log)
  {
    hide SaidOf;
    forall j | 0 <= j < k ensures SaidOf(b, writes[..k][j], records, log) {
      assert writes[j] == writes[..k][j];
    }
  }

  lemma {:induction false} BatchIncreases(records: seq<CommandRecord>, i: nat)
    requires BatchValid(records) && i < |records|
    ensures records[i].offset <= records[|records| - 1].offset
    ensures records[i].partition.Normalize() == records[|records| - 1].partition.Normalize()
    decreases |records| - i
  {
    assert RecordFits(records, i) && RecordFits(records, |records| - 1);
    if i < |records| - 1 {
      assert RecordFits(records, i + 1);
      BatchIncreases(records, i + 1);
    }
  }

  /** Receipts when a recorder failed half way: the first terminal failures, or all of
      them and the first applied commands. */
  ghost predicate PartlyWritten(b: Behaviour, before: map<Slot, Receipt>, after: map<Slot, Receipt>,
                                records: seq<CommandRecord>,
                                messages: seq<EventMessage>)
    requires |messages| == |D.DecidedEvents(b.decide, records)|
  {
    var n := |records|;
    || (exists i :: 0 <= i <= n && after == WriteAll(before, Writes(b, records, messages, i, Failures)))
    || exists k :: 0 <= k <= |Writes(b, records, messages, n, Successes)|
         && after == WriteAll(WriteAll(before, Writes(b, records, messages, n, Failures)),
                              Writes(b, records, messages, n, Successes)[..k])
  }

  /** After the first i records: their terminal receipts are written and the applied ones
      collected. */
  ghost predicate Recording(b: Behaviour, before: map<Slot, Receipt>, after: map<Slot, Receipt>,
                            records: seq<CommandRecord>,
                            messages: seq<EventMessage>, i: nat, applied: seq<Written>)
    requires |messages| == |D.DecidedEvents(b.decide, records)|
  {
    && i <= |records| && after == WriteAll(before, Writes(b, records, messages, i, Failures))
    && applied == Writes(b, records, messages, i, Successes)
  }

  lemma RecordingStarts(b: Behaviour, before: map<Slot, Receipt>, records: seq<CommandRecord>,
                        messages: seq<EventMessage>)
    requires |messages| == |D.DecidedEvents(b.decide, records)|
    ensures Recording(b, before, before, records, messages, 0, [])
  {
    hide WriteAll;
    NothingWritten(before);
  }

  /** Where the messages of command i start. */
  function StartOf(ends: seq<nat>, i: nat): nat
    requires i < |ends|
  {
    if i == 0 then 0 else ends[i - 1]
  }

  lemma RangeOf(b: Behaviour, records: seq<CommandRecord>, messages: seq<EventMessage>, ends: seq<nat>, i: nat)
    requires i < |records| == |ends| && |messages| == |D.DecidedEvents(b.decide, records)|
    requires forall j :: 0 <= j < |records| ==> ends[j] == EndOf(b, records, j + 1)
    ensures StartOf(ends, i) <= ends[i] <= |messages|
    ensures ReceiptAt(b, records, messages, i) == ReceiptFor(b, records[i], messages[StartOf(ends, i)..ends[i]])
  {
    hide D.DecidedEvents, ReceiptFor;
    EndGrows(b, records, i);
    if i == 0 {
      assert records[..0] == [];
      D.DecidedNone(b.decide);
    }
  }

  /** A terminal receipt goes to the failures, an applied one to the successes. */
  lemma WritesSnoc(b: Behaviour, records: seq<CommandRecord>, messages: seq<EventMessage>, i: nat)
    requires i < |records| && |messages| == |D.DecidedEvents(b.decide, records)|
    ensures
      var failures, successes := Writes(b, records, messages, i, Failures), Writes(b, records, messages, i, Successes);
      var r, more := records[i], WriteOf(records[i], ReceiptAt(b, records, messages, i));
      && Writes(b, records, messages, i + 1, Failures) == (if b.decide(r).Terminal? then failures + more else failures)
      && Writes(b, records, messages, i + 1,
                Successes) == (if b.decide(r).Terminal? then successes else successes + more)
  {
    hide ReceiptAt, WriteOf;
    var failures, successes := Writes(b, records, messages, i, Failures), Writes(b, records, messages, i, Successes);
    assert failures + [] == failures && successes + [] == successes;
  }

  /** One record more, and what a failing recorder would leave. */
  lemma RecordingStep(b: Behaviour, before: map<Slot, Receipt>, after: map<Slot, Receipt>, records: seq<CommandRecord>,
                      messages: seq<EventMessage>, ends: seq<nat>, i: nat, applied: seq<Written>)
    requires |messages| == |D.DecidedEvents(b.decide, records)| && i < |records| == |ends|
    requires forall j :: 0 <= j < |records| ==> ends[j] == EndOf(b, records, j + 1)
    requires Recording(b, before, after, records, messages, i, applied)
    ensures StartOf(ends, i) <= ends[i] <= |messages|
    ensures
      var r, range := records[i], messages[StartOf(ends, i)..ends[i]];
      if b.decide(r).Terminal? then Recording(b, before, after[SlotOf(r) := FailedForGood], records, messages, i + 1, applied)
      else if b.reply(r).None? then Recording(b, before, after, records, messages, i + 1, applied)
      else
        var s := b.reply(r).value;
        Recording(b, before, after, records, messages, i + 1,
                  applied + [Written(SlotOf(r), AppliedAt(if s <= 0 then RaisedSeq(s, range) else s))])
    ensures PartlyWritten(b, before, after, records, messages)
  {
    hide D.DecidedEvents, WriteAll, RaisedSeq, Writes, PartlyWritten, ReceiptAt, EndOf;
    var r := records[i];
    RangeOf(b, records, messages, ends, i);
    WritesSnoc(b, records, messages, i);
    WriteOfAppend(before, Writes(b, records, messages, i, Failures), r, ReceiptAt(b, records, messages, i));
    assert applied + [] == applied;
    FailuresWritten(b, before, after, records, messages, i);
  }

  lemma RecordingEnds(b: Behaviour, before: map<Slot, Receipt>, mid: map<Slot, Receipt>, after: map<Slot, Receipt>,
                      records: seq<CommandRecord>, messages: seq<EventMessage>, applied: seq<Written>, n: nat)
    requires |messages| == |D.DecidedEvents(b.decide, records)|
    requires Recording(b, before, mid, records, messages, |records|, applied)
    requires n <= |applied| && after == WriteAll(mid, applied[..n])
    ensures PartlyWritten(b, before, after, records, messages)
    ensures after == WriteAll(mid, applied) ==>
              after == WriteAll(WriteAll(before, Writes(b, records, messages, |records|, Failures)),
                                Writes(b, records, messages, |records|, Successes))
  {
    hide D.DecidedEvents, WriteAll, Writes, PartlyWritten;
    SuccessesWritten(b, before, after, records, messages, n);
  }

  lemma FailuresWritten(b: Behaviour, before: map<Slot, Receipt>, after: map<Slot, Receipt>,
                        records: seq<CommandRecord>,
                        messages: seq<EventMessage>, i: nat)
    requires |messages| == |D.DecidedEvents(b.decide, records)| && i <= |records|
    requires after == WriteAll(before, Writes(b, records, messages, i, Failures))
    ensures PartlyWritten(b, before, after, records, messages)
  {
    hide WriteAll, Writes;
  }

  lemma SuccessesWritten(b: Behaviour, before: map<Slot, Receipt>, after: map<Slot, Receipt>,
                         records: seq<CommandRecord>,
                         messages: seq<EventMessage>, k: nat)
    requires |messages| == |D.DecidedEvents(b.decide, records)|
    requires k <= |Writes(b, records, messages, |records|, Successes)|
    requires after == WriteAll(WriteAll(before, Writes(b, records, messages, |records|, Failures)),
                               Writes(b, records, messages, |records|, Successes)[..k])
    ensures PartlyWritten(b, before, after, records, messages)
  {
    hide WriteAll, Writes;
  }

  /** The transaction took effect and its receipts were written at least in part. */
  ghost predicate PartlyFinalized(b: Behaviour, before: World, after: World, records: seq<CommandRecord>) {
    var appended := T.AppendAll(before.events, Requests(D.DecidedEvents(b.decide, records)));
    && appended.Ok? && after.events == appended.value.log
    && |appended.value.messages| == |D.DecidedEvents(b.decide, records)|
    && PartlyWritten(b, before.receipts, after.receipts, records, appended.value.messages)
  }

  lemma TookPart(b: Behaviour, before: World, after: World, records: seq<CommandRecord>, messages: seq<EventMessage>)
    requires records != []
    requires Took(before, after.(receipts := before.receipts), PositionFor(records[|records| - 1]),
                  D.DecidedEvents(b.decide, records), messages)
    requires |messages| == |D.DecidedEvents(b.decide, records)|
    requires PartlyWritten(b, before.receipts, after.receipts, records, messages)
    ensures PartlyFinalized(b, before, after, records)
  {
    hide T.AppendAll, Requests, D.DecidedEvents, PartlyWritten;
  }

  lemma TookAll(b: Behaviour, before: World, after: World, records: seq<CommandRecord>, messages: seq<EventMessage>)
    requires records != []
    requires Took(before, after.(receipts := before.receipts), PositionFor(records[|records| - 1]),
                  D.DecidedEvents(b.decide, records), messages)
    requires |messages| == |D.DecidedEvents(b.decide, records)|
    requires after.receipts == WriteAll(WriteAll(before.receipts, Writes(b, records, messages, |records|, Failures)),
                                        Writes(b, records, messages, |records|, Successes))
    ensures FinalizeAll(b, before, records) == Ok(after)
  {
  }

  /** The transaction took effect and stored these messages. */
  ghost predicate Took(before: World, after: World, position: T.CommitPosition, events: seq<EventRecord>,
                       messages: seq<EventMessage>) {
    && T.AppendAll(before.events, Requests(events)) == Ok(T.Batch(after.events, messages))
    && after.commands == before.commands.(committed := C.Commit(before.commands.committed, position.partition, position.offset))
    && after.receipts == before.receipts
  }

  lemma TookCommits(before: World, after: World, position: T.CommitPosition, events: seq<EventRecord>,
                    messages: seq<EventMessage>)
    requires Took(before, after, position, events, messages)
    ensures NoEarlier(before.commands, after.commands)
    ensures position.offset <= after.commands.Committed(position.partition.Normalize())
    ensures |messages| == |events|
  {
  }

  lemma TookOne(b: Behaviour, before: World, after: World, r: CommandRecord, messages: seq<EventMessage>)
    requires Took(before, after.(receipts := before.receipts), PositionFor(r), D.EventsOf(b.decide(r)), messages)
    requires after.receipts == Put(before.receipts, SlotOf(r), ReceiptFor(b, r, messages))
    ensures FinalizeOne(b, before, r) == Ok(after)
  {
  }
}
