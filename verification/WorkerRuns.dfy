/** The worker's calls as steps of the whole system: an undisturbed drain, in either
    form, is a run. */
module WorkerRuns {
  import opened LogModel
  import opened BrokerEventLog
  import opened CommandEventTransaction
  import opened Decisions
  import opened ExactlyOnce
  import opened DrainModel
  import opened DrainSpec
  import C = BrokerCommandLog
  import S = TransactionStore
  import I = PartitionIndex

  /** The worker is draining these records. */
  ghost predicate Draining(s: State, w: WorkerId, p: Partition, last: int, records: seq<C.CommandRecord>) {
    w in s.workers && s.workers[w] == Worker.Draining(p, last, records)
  }

  lemma RunExtends(decide: Decider, states: seq<State>, s: State)
    requires Run(decide, states) && Next(decide, states[|states| - 1], s)
    ensures Run(decide, states + [s])
  {
    hide Next;
    var all := states + [s];
    forall i | 0 <= i < |all| - 1 ensures Next(decide, all[i], all[i + 1]) {
      if i < |states| - 1 {
        assert Next(decide, states[i], states[i + 1]);
      }
    }
  }

  lemma StepExtends(decide: Decider, states: seq<State>, s: State, step: ExactlyOnce.Step)
    requires Run(decide, states) && NextStep(decide, states[|states| - 1], s, step)
    ensures Run(decide, states + [s])
  {
    hide NextStep;
    assert Next(decide, states[|states| - 1], s);
    RunExtends(decide, states, s);
  }

  /** The logs as finalizing these records leaves them. */
  ghost predicate Reaches(b: Behaviour, from: State, s: State, records: seq<C.CommandRecord>, receipts: map<Slot, Receipt>) {
    && var r := FinalizeEach(b, World(from.commands, from.events, receipts), records);
    r.Ok? && s.commands == r.value.commands && s.events == r.value.events
  }

  /** Submit, deliver and confirm the first `count` records. */
  lemma GoThrough(decide: Decider, states: seq<State>, w: WorkerId, p: Partition, last: int,
                  records: seq<C.CommandRecord>, count: nat)
    returns (states': seq<State>)
    requires states != [] && Stable(decide) && Run(decide, states)
    requires Draining(states[|states| - 1], w, p, last, records) && 1 <= count <= |records|
    ensures states <= states' && Run(decide, states')
    ensures
      var s, s', events := states[|states| - 1], states'[|states'| - 1], DecidedEvents(decide, records[..count]);
      && Draining(s', w, p, last + count, records[count..])
      && s'.commands == s.commands.(committed := C.Commit(s.commands.committed, p, last + count))
      && AppendAll(s.events, S.Requests(events)).Ok? && s'.events == AppendAll(s.events, S.Requests(events)).value.log
  {
    hide Stable, Run, NextStep, AppendAll, DecidedEvents, S.Requests;
    var sub := Submission(p, records[..count]);
    var s1, s2, s3 := WorkersGetThrough(decide, states, |states| - 1, w, count);
    StepExtends(decide, states, s1, Submit(w, count));
    StepExtends(decide, states + [s1], s2, Deliver(sub));
    StepExtends(decide, states + [s1] + [s2], s3, Confirm(w));
    states' := states + [s1] + [s2] + [s3];
    DrainingWorker(decide, s2, s3, w);
  }

  lemma DrainingWorker(decide: Decider, s: State, s': State, w: WorkerId)
    requires NextStep(decide, s, s', Confirm(w))
    ensures w in s'.workers
  {
  }

  lemma PlacedAt(decide: Decider, states: seq<State>, w: WorkerId, p: Partition, last: int,
                 records: seq<C.CommandRecord>)
    requires states != [] && Stable(decide) && Run(decide, states)
    requires Draining(states[|states| - 1], w, p, last, records)
    ensures Slice(records, p, last) && p.Normal()
  {
    hide Stable, Run, C.Valid, Commands, Inv;
    RunKeeps(decide, states, |states| - 1);
    var s := states[|states| - 1];
    var k := WorkerSoundOf(decide, s, w);
    ValidOf(decide, s);
    AllPlaced(s.commands, p);
    assert forall i :: 0 <= i < |records| ==> records[i] == Commands(s.commands, p)[last + i];
  }

  /** The per-record form: one transaction after another. */
  lemma {:induction false} EachIsARun(b: Behaviour, states: seq<State>, w: WorkerId, p: Partition, last: int,
                                      records: seq<C.CommandRecord>,
                                      n: nat, receipts: map<Slot, Receipt>) returns (states': seq<State>)
    requires states != [] && Stable(b.decide) && Run(b.decide, states)
    requires Draining(states[|states| - 1], w, p, last, records) && n <= |records|
    ensures states <= states' && Run(b.decide, states')
    ensures Draining(states'[|states'| - 1], w, p, last + n, records[n..])
    ensures Reaches(b, states[|states| - 1], states'[|states'| - 1], records[..n], receipts)
  {
    hide Stable, Run, Slice, Reaches, FinalizeEach, AppendAll, DecidedEvents;
    if n == 0 {
      states' := states;
      assert records[..0] == [] && records[0..] == records;
      ReachesNothing(b, states[|states| - 1], receipts);
    } else {
      var init := EachIsARun(b, states, w, p, last, records, n - 1, receipts);
      PlacedAt(b.decide, states, w, p, last, records);
      states' := GoThrough(b.decide, init, w, p, last + n - 1, records[n - 1..], 1);
      var r := records[n - 1];
      assert records[n - 1..][..1] == [r] && records[n - 1..][1..] == records[n..];
      DecidedSingle(b.decide, r);
      OffsetOfSlice(records, p, last, n - 1);
      ReachesMore(b, states[|states| - 1], init[|init| - 1], states'[|states'| - 1], records, n, receipts);
    }
  }

  lemma ReachesNothing(b: Behaviour, s: State, receipts: map<Slot, Receipt>)
    ensures Reaches(b, s, s, [], receipts)
  {
  }

  lemma ReachesMore(b: Behaviour, from: State, mid: State, s: State, records: seq<C.CommandRecord>, n: nat,
                    receipts: map<Slot, Receipt>)
    requires 1 <= n <= |records| && Reaches(b, from, mid, records[..n - 1], receipts)
    requires
      var r := records[n - 1];
      var appended := AppendAll(mid.events, S.Requests(EventsOf(b.decide(r))));
      && s.commands == mid.commands.(committed := C.Commit(mid.commands.committed, r.partition, r.offset))
      && appended.Ok? && s.events == appended.value.log
    ensures Reaches(b, from, s, records[..n], receipts)
  {
    hide AppendAll, S.Requests, Put, ReceiptFor;
    assert records[..n][..n - 1] == records[..n - 1];
  }

  lemma OffsetOfSlice(records: seq<C.CommandRecord>, p: Partition, last: int, i: nat)
    requires Slice(records, p, last) && i < |records|
    ensures records[i].offset == last + i + 1 && records[i].partition == p
  {
  }

  /** The batch form: all of them in one transaction, with the same outcome. */
  lemma BatchIsARun(b: Behaviour, states: seq<State>, w: WorkerId, p: Partition, last: int,
                    records: seq<C.CommandRecord>,
                    n: nat, receipts: map<Slot, Receipt>) returns (states': seq<State>)
    requires states != [] && Stable(b.decide) && Run(b.decide, states)
    requires Draining(states[|states| - 1], w, p, last, records) && n <= |records|
    ensures states <= states' && Run(b.decide, states')
    ensures Draining(states'[|states'| - 1], w, p, last + n, records[n..])
    ensures Reaches(b, states[|states| - 1], states'[|states'| - 1], records[..n], receipts)
  {
    hide Stable, Run, AppendAll, S.Requests, FinalizeEach, DecidedEvents, Writes, WriteAll, Slice;
    PlacedAt(b.decide, states, w, p, last, records);
    var s := states[|states| - 1];
    SliceIncreases(records, p, last, n);
    if n == 0 {
      states' := EachIsARun(b, states, w, p, last, records, 0, receipts);
    } else {
      states' := GoThrough(b.decide, states, w, p, last, records, n);
      OffsetOfSlice(records, p, last, n - 1);
      BatchRefinesEach(b, World(s.commands, s.events, receipts), records[..n], p);
      assert records[..n][n - 1] == records[n - 1];
    }
  }

  lemma SliceIncreases(records: seq<C.CommandRecord>, p: Partition, last: int, n: nat)
    requires Slice(records, p, last) && n <= |records|
    ensures Increasing(records[..n], p)
  {
  }

  /** Read an offset up to which everything is committed, and fetch past it. */
  lemma StartDraining(decide: Decider, states: seq<State>, w: WorkerId, p: Partition, from: int,
                      limit: int) returns (states': seq<State>)
    requires states != [] && Stable(decide) && Run(decide, states) && p.Normal()
    requires 0 <= from <= states[|states| - 1].commands.Committed(p)
    ensures states <= states' && Run(decide, states')
    ensures
      var s, s' := states[|states| - 1], states'[|states'| - 1];
      && s'.commands == s.commands && s'.events == s.events
      && Draining(s', w, p, from, Data(Limit(After(PartitionOf(s.commands.stream, p), from), limit)))
  {
    hide Run, Stable, After, PartitionOf, Data, Limit;
    var s := states[|states| - 1];
    var s1 := s.(workers := s.workers[w := Started(p, from)]);
    var fetched := Data(Limit(After(PartitionOf(s.commands.stream, p), from), limit));
    var s2 := s1.(workers := s1.workers[w := Worker.Draining(p, from, fetched)]);
    StepExtends(decide, states, s1, ReadCommitted(w, p, from));
    StepExtends(decide, states + [s1], s2, Fetch(w, limit));
    states' := states + [s1] + [s2];
  }

  /** Behind the partition index a worker starts from the indexed offset, which the log
      itself may never have answered: it is a step of the system all the same. */
  lemma IndexedReadIsAStep(decide: Decider, s: State, w: WorkerId, rows: I.Index, p: Partition)
    requires C.Valid(s.commands) && I.Trails(rows, s.commands) && p.Normal()
    ensures
      var offset := I.CommittedOffset(rows, p);
      NextStep(decide, s, s.(workers := s.workers[w := Started(p, offset)]), ReadCommitted(w, p, offset))
  {
    C.DenseOf(s.commands, p);
    if p in rows {
      assert I.RowSound(s.commands, p, rows[p]);
    }
  }

  /** An undisturbed drain in either form, from the committed offset or a lower one, is
      a run of the system: from any reachable state there are steps of the worker that
      end with exactly the logs that the drain leaves. */
  lemma DrainIsARun(b: Behaviour, states: seq<State>, w: WorkerId, p: Partition, from: int, limit: int, batched: bool,
                    receipts: map<Slot, Receipt>) returns (states': seq<State>)
    requires states != [] && Stable(b.decide) && Run(b.decide, states) && p.Normal()
    requires 0 <= from <= states[|states| - 1].commands.Committed(p)
    ensures states <= states' && Run(b.decide, states')
    ensures
      var s, s' := states[|states| - 1], states'[|states'| - 1];
      var records := Data(Limit(After(PartitionOf(s.commands.stream, p), from), limit));
      var drained := DrainOf(b, World(s.commands, s.events, receipts), from, records);
      drained.Ok? && s'.commands == drained.value.world.commands && s'.events == drained.value.world.events
  {
    hide Stable, Run, FinalizeEach, After, PartitionOf, Data, Limit;
    var s := states[|states| - 1];
    var records := Data(Limit(After(PartitionOf(s.commands.stream, p), from), limit));
    var started := StartDraining(b.decide, states, w, p, from, limit);
    var n := Stop(b, records);
    if batched {
      states' := BatchIsARun(b, started, w, p, from, records, n, receipts);
    } else {
      states' := EachIsARun(b, started, w, p, from, records, n, receipts);
    }
  }
}
