/** Materializing the event log into a projection, partition by partition: a
    watermark per partition moves in the same transaction as the projection. */
module EventMaterializer {
  import opened LogModel
  import opened BrokerEventLog

  // ---- Checking what replay returned ---------------------------------------------------

  /** The events to apply after `last`: repeats are skipped, a gap or a foreign
      partition is an error. */
  function Checked(p: Partition, last: int, events: seq<EventMessage>): Result<seq<EventMessage>>
    decreases |events|
  {
    if events == [] then Ok([])
    else
      var e := events[0];
      if e.partition.Normalize() != p then Err(WrongPartition)
      else if e.offset <= last then Checked(p, last, events[1..])
      else if e.offset != last + 1 then Err(OffsetGap)
      else Then([e], Checked(p, last + 1, events[1..]))
  }

  function Then(front: seq<EventMessage>, rest: Result<seq<EventMessage>>): Result<seq<EventMessage>> {
    if rest.Err? then rest else Ok(front + rest.value)
  }

  method CheckEvents(p: Partition, applied: int, events: seq<EventMessage>) returns (r: Result<seq<EventMessage>>)
    ensures r == Checked(p, applied, events)
  {
    var out: seq<EventMessage> := [];
    var last := applied;
    var i := 0;
    assert events[0..] == events;
    if Checked(p, applied, events).Ok? {
      assert [] + Checked(p, applied, events).value == Checked(p, applied, events).value;
    }
    while i < |events|
      invariant 0 <= i <= |events|
      invariant Checked(p, applied, events) == Then(out, Checked(p, last, events[i..]))
    {
      var e := events[i];
      assert events[i..][1..] == events[i + 1..];
      var rest := Checked(p, last + 1, events[i + 1..]);
      if rest.Ok? {
        assert out + ([e] + rest.value) == (out + [e]) + rest.value;
      }
      if e.partition.Normalize() != p {
        return Err(WrongPartition);
      }
      i := i + 1;
      if e.offset <= last {
        continue;
      }
      if e.offset != last + 1 {
        return Err(OffsetGap);
      }
      out := out + [e];
      last := e.offset;
    }
    assert events[i..] == [];
    assert out + [] == out;
    r := Ok(out);
  }

  ghost predicate Consecutive(events: seq<EventMessage>, last: int) {
    forall i :: 0 <= i < |events| ==> events[i].offset == last + i + 1
  }

  /** Events of p past `last`, in increasing order: they are applied exactly when
      they follow `last` without a gap. */
  lemma {:induction false} CheckedExactly(p: Partition, last: int, events: seq<EventMessage>)
    requires OffsetsIncrease(events) && p.Normal()
    requires forall i :: 0 <= i < |events| ==> events[i].partition == p && events[i].offset > last
    ensures
      var r := Checked(p, last, events);
      if Consecutive(events, last) then r == Ok(events) else r == Err(OffsetGap)
    decreases |events|
  {
    hide Consecutive;
    if events == [] {
      NothingSkipped(last);
    } else {
      var rest := events[1..];
      ConsecutiveFrom(events, last);
      if events[0].offset == last + 1 {
        CheckedExactly(p, last + 1, rest);
        assert [events[0]] + rest == events;
      }
    }
  }

  lemma NothingSkipped(last: int)
    ensures Consecutive([], last)
  {
  }

  lemma ConsecutiveFrom(events: seq<EventMessage>, last: int)
    requires events != []
    ensures Consecutive(events, last) <==> events[0].offset == last + 1 && Consecutive(events[1..], last + 1)
  {
    var rest := events[1..];
    assert forall i :: 0 < i < |events| ==> events[i] == rest[i - 1];
    if Consecutive(events, last) {
      forall i | 0 <= i < |rest| ensures rest[i].offset == last + 1 + i + 1 {
        assert events[i + 1] == rest[i];
      }
    }
  }

  // ---- The projection and the log ------------------------------------------------------

  /** What was applied so far, partition by partition: the first events of the
      partition, as many as its watermark says, without a gap. */
  ghost predicate Follows(log: EventLog, applied: seq<EventMessage>, watermarks: map<Partition, int>) {
    forall p :: PrefixApplied(log, applied, p, OffsetOf(watermarks, p))
  }

  ghost predicate PrefixApplied(log: EventLog, applied: seq<EventMessage>, p: Partition, n: int) {
    && PartitionOf(applied, p) <= PartitionOf(log.stream, p)
    && |PartitionOf(applied, p)| == n && Dense(PartitionOf(applied, p))
  }

  /** None of these partitions has a gap. */
  ghost predicate AllDense(log: EventLog, partitions: seq<Partition>) {
    forall i :: 0 <= i < |partitions| ==> Dense(PartitionOf(log.stream, partitions[i].Normalize()))
  }

  /** The next events of p, as replay returns them. */
  function NextBatch(log: EventLog, p: Partition, after: int, limit: int): seq<EventMessage> {
    Limit(After(PartitionOf(log.stream, p), after), PageSize(limit))
  }

  lemma NextIsNext(log: EventLog, applied: seq<EventMessage>, p: Partition, n: int, limit: int)
    requires Valid(log) && PrefixApplied(log, applied, p, n)
    ensures 0 <= n <= |PartitionOf(log.stream, p)|
    ensures
      var all, batch := PartitionOf(log.stream, p), NextBatch(log, p, n, limit);
      && n + |batch| <= |all| && batch == all[n..n + |batch|]
      && (|batch| < PageSize(limit) ==> n + |batch| == |all|)
      && OffsetsIncrease(batch)
      && forall i :: 0 <= i < |batch| ==> batch[i].offset > n && batch[i].partition == p
  {
    hide Valid, PartitionOf, After;
    var all := PartitionOf(log.stream, p);
    PartitionIncreases(log, p);
    assert forall i :: 0 <= i < n ==> all[i] == PartitionOf(applied, p)[i];
    forall i | 0 <= i < |all| ensures all[i].partition == p && all[i].offset >= 1 {
      PartitionOfSound(log.stream, p, i);
      StoredOffset(log, all[i]);
    }
    PastPrefix(all, n);
    AfterFrom(all, n, n);
  }

  lemma StoredOffset(log: EventLog, m: EventMessage)
    requires Valid(log) && m in log.stream
    ensures m.offset >= 1
  {
    var i :| 0 <= i < |log.stream| && log.stream[i] == m;
    assert WellPlaced(log, log.stream[i]);
  }

  lemma PastPrefix(all: seq<EventMessage>, n: nat)
    requires OffsetsIncrease(all) && n <= |all| && forall i :: 0 <= i < n ==> all[i].offset == i + 1
    requires forall i :: 0 <= i < |all| ==> all[i].offset >= 1
    ensures forall i :: n <= i < |all| ==> all[i].offset > n
  {
    if 0 < n < |all| {
      assert all[n - 1].offset == n;
    }
  }

  /** Applying the next events of p moves p's prefix and no other. */
  lemma FollowsMore(log: EventLog, applied: seq<EventMessage>, watermarks: map<Partition, int>, p: Partition,
                    batch: seq<EventMessage>)
    requires Follows(log, applied, watermarks)
    requires forall i :: 0 <= i < |batch| ==>
              batch[i].partition == p && batch[i].offset == OffsetOf(watermarks, p) + i + 1
    requires OffsetOf(watermarks, p) + |batch| <= |PartitionOf(log.stream, p)|
    requires batch == PartitionOf(log.stream, p)[OffsetOf(watermarks, p)..OffsetOf(watermarks, p) + |batch|]
    ensures Follows(log, applied + batch, watermarks[p := OffsetOf(watermarks, p) + |batch|])
  {
    hide PrefixApplied, PartitionOf;
    var n := OffsetOf(watermarks, p);
    var watermarks' := watermarks[p := n + |batch|];
    forall q ensures PrefixApplied(log, applied + batch, q, OffsetOf(watermarks', q)) {
      assert PrefixApplied(log, applied, q, OffsetOf(watermarks, q));
      PartitionOfConcat(applied, batch, p, q);
      if q == p {
        PrefixMore(log, applied, p, n, batch);
      } else {
        PrefixSame(log, applied, applied + batch, q, OffsetOf(watermarks, q));
      }
    }
  }

  lemma PrefixMore(log: EventLog, applied: seq<EventMessage>, p: Partition, n: int, batch: seq<EventMessage>)
    requires PrefixApplied(log, applied, p, n) && n + |batch| <= |PartitionOf(log.stream, p)|
    requires batch == PartitionOf(log.stream, p)[n..n + |batch|] && forall i :: 0 <= i < |batch| ==>
              batch[i].offset == n + i + 1
    requires PartitionOf(applied + batch, p) == PartitionOf(applied, p) + batch
    ensures PrefixApplied(log, applied + batch, p, n + |batch|)
  {
    hide PartitionOf;
    var all, done := PartitionOf(log.stream, p), PartitionOf(applied, p);
    assert done == all[..n];
    assert done + batch == all[..n + |batch|];
  }

  lemma PrefixSame(log: EventLog, applied: seq<EventMessage>, applied': seq<EventMessage>, p: Partition, n: int)
    requires PrefixApplied(log, applied, p, n) && PartitionOf(applied', p) == PartitionOf(applied, p)
    ensures PrefixApplied(log, applied', p, n)
  {
    hide PartitionOf;
  }

  lemma {:induction false} PartitionOfConcat(a: seq<EventMessage>, b: seq<EventMessage>, p: Partition, q: Partition)
    requires forall i :: 0 <= i < |b| ==> b[i].partition == p
    ensures PartitionOf(a + b, q) == PartitionOf(a, q) + if q == p then b else []
  {
    if b == [] {
      assert a + b == a;
    } else {
      var n := |b| - 1;
      assert (a + b)[..|a + b| - 1] == a + b[..n];
      PartitionOfConcat(a, b[..n], p, q);
    }
  }

  /** A longer log changes nothing that was applied. */
  lemma FollowsGrown(log: EventLog, log': EventLog, applied: seq<EventMessage>, watermarks: map<Partition, int>)
    requires Follows(log, applied, watermarks) && log.stream <= log'.stream
    ensures Follows(log', applied, watermarks)
  {
    forall p ensures PrefixApplied(log', applied, p, OffsetOf(watermarks, p)) {
      assert PrefixApplied(log, applied, p, OffsetOf(watermarks, p));
      PartitionOfPrefix(log'.stream, p, |log.stream|);
      assert log'.stream[..|log.stream|] == log.stream;
    }
  }

  lemma {:induction false} PartitionOfPrefix(stream: seq<EventMessage>, p: Partition, n: nat)
    requires n <= |stream|
    ensures PartitionOf(stream[..n], p) <= PartitionOf(stream, p)
  {
    if n < |stream| {
      var last := |stream| - 1;
      PartitionOfPrefix(stream[..last], p, n);
      assert stream[..last][..n] == stream[..n];
    } else {
      assert stream[..n] == stream;
    }
  }

  /** Events still to apply over the listed partitions: what a drain uses up. */
  ghost function Remaining(log: EventLog, watermarks: map<Partition, int>, partitions: seq<Partition>): int {
    if partitions == [] then 0
    else
      var p := partitions[|partitions| - 1].Normalize();
      Remaining(log, watermarks, partitions[..|partitions| - 1]) + |PartitionOf(log.stream, p)| - OffsetOf(watermarks, p)
  }

  lemma {:induction false} RemainingCounts(log: EventLog, applied: seq<EventMessage>, watermarks: map<Partition, int>,
                                           partitions: seq<Partition>)
    requires Follows(log, applied, watermarks)
    ensures Remaining(log, watermarks, partitions) >= 0
  {
    if partitions != [] {
      RemainingCounts(log, applied, watermarks, partitions[..|partitions| - 1]);
      var p := partitions[|partitions| - 1].Normalize();
      assert PrefixApplied(log, applied, p, OffsetOf(watermarks, p));
    }
  }

  ghost predicate NoLower(before: map<Partition, int>, after: map<Partition, int>) {
    forall p :: OffsetOf(before, p) <= OffsetOf(after, p)
  }

  lemma {:induction false} RemainingShrinks(log: EventLog, before: map<Partition, int>, after: map<Partition, int>,
                                            partitions: seq<Partition>, i: int)
    requires NoLower(before, after)
    ensures Remaining(log, after, partitions) <= Remaining(log, before, partitions)
    ensures (0 <= i < |partitions|
             && OffsetOf(before, partitions[i].Normalize()) < OffsetOf(after, partitions[i].Normalize())) ==>
              Remaining(log, after, partitions) < Remaining(log, before, partitions)
  {
    if partitions != [] {
      RemainingShrinks(log, before, after, partitions[..|partitions| - 1], i);
    }
  }

  // ---- One transaction --------------------------------------------------------------------

  datatype Projection<S> = Projection(state: S, watermarks: map<Partition, int>, applied: seq<EventMessage>)

  /** What a pass has read and not yet applied. */
  datatype Held = Held(partition: Partition, from: int, events: seq<EventMessage>)

  function ReadNext<S>(log: EventLog, shown: Projection<S>, partition: Partition, limit: int): Held {
    var p := partition.Normalize();
    var from := OffsetOf(shown.watermarks, p);
    Held(p, from, NextBatch(log, p, from, limit))
  }

  /** Check and apply what was read; the projection and the watermark move together. */
  function LandOf<S>(apply: (S, EventMessage) -> S, shown: Projection<S>, held: Held): Result<Projection<S>> {
    var checked := Checked(held.partition, held.from, held.events);
    if checked.Err? then Err(checked.error)
    else if checked.value == [] then Ok(shown)
    else Ok(Projection(Fold(apply, shown.state, checked.value),
                       shown.watermarks[held.partition := held.from + |checked.value|], shown.applied + checked.value))
  }

  // ---- The worker -------------------------------------------------------------------------

  datatype Materialized = Materialized(partition: Partition, started: int, last: int, applied: nat)

  /** Which events cannot be applied and which transactions cannot commit. */
  datatype Faults = Faults(applying: EventMessage -> bool, committing: Partition -> bool)

  ghost predicate Harmless(faults: Faults) {
    (forall m :: !faults.applying(m)) && forall p :: !faults.committing(p)
  }

  /** The partition is at its last event. */
  ghost predicate CaughtUp(log: EventLog, watermarks: map<Partition, int>, p: Partition) {
    OffsetOf(watermarks, p) == |PartitionOf(log.stream, p)|
  }

  class ProjectionWorker<S> {
    const apply: (S, EventMessage) -> S
    const init: S
    const batchSize: int
    var state: S
    var watermarks: map<Partition, int>
    ghost var applied: seq<EventMessage>

    constructor (apply: (S, EventMessage) -> S, init: S, batchSize: int)
      ensures this.apply == apply && this.init == init && this.batchSize == batchSize
      ensures state == init && watermarks == map[] && applied == []
    {
      this.apply, this.init, this.batchSize := apply, init, batchSize;
      state, watermarks, applied := init, map[], [];
    }

    /** The projection is the fold of what was applied, and that is a gap-free
        prefix of every partition of the log. */
    ghost predicate Current(log: EventLog)
      reads this
    {
      state == Fold(apply, init, applied) && Follows(log, applied, watermarks)
    }

    ghost function Shown(): Projection<S>
      reads this
    {
      Projection(state, watermarks, applied)
    }

    /** Apply a checked batch to the working state of one transaction. */
    method ApplyEvents(from: S, events: seq<EventMessage>, faults: Faults)
      returns (working: S, done: nat, error: Option<Failure>)
      ensures done <= |events| && working == Fold(apply, from, events[..done])
      ensures error.None? <==> forall i :: 0 <= i < |events| ==> !faults.applying(events[i])
      ensures error.None? ==> done == |events| && working == Fold(apply, from, events)
    {
      hide Fold;
      working, done := from, 0;
      FoldNone(apply, from, events);
      while done < |events|
        invariant 0 <= done <= |events| && working == Fold(apply, from, events[..done])
        invariant forall i :: 0 <= i < done ==> !faults.applying(events[i])
      {
        if faults.applying(events[done]) {
          return working, done, Some(ApplyFailure);
        }
        FoldStep(apply, from, events, done);
        working := apply(working, events[done]);
        done := done + 1;
      }
      assert events[..done] == events;
      error := None;
    }

    method MaterializePartition(log: EventLog, partition: Partition, faults: Faults)
      returns (r: Materialized, error: Option<Failure>)
      requires Valid(log) && Current(log)
      modifies this
      ensures Current(log)
      ensures error.Some? ==> state == old(state) && watermarks == old(watermarks) && applied == old(applied)
      ensures error.None? ==>
                LandOf(apply, old(Shown()), ReadNext(log, old(Shown()), partition, batchSize)) ==
                Ok(Shown())
      ensures r.partition == partition.Normalize() && r.started == OffsetOf(old(watermarks), r.partition)
      ensures error.None? ==>
                && applied == old(applied) + NextBatch(log, r.partition, r.started, batchSize)
                && r.applied == |NextBatch(log, r.partition, r.started, batchSize)|
                && (forall q :: OffsetOf(watermarks, q) == OffsetOf(old(watermarks), q) + if q == r.partition then r.applied else 0)
                && (r.applied < PageSize(batchSize) ==> CaughtUp(log, watermarks, r.partition))
      ensures Harmless(faults) && Dense(PartitionOf(log.stream, partition.Normalize())) ==> error.None?
    {
      hide Valid, PartitionOf, After, Limit, Follows, Fold, Dense, NextBatch, Checked, PrefixApplied, OffsetsIncrease;
      var p := partition.Normalize();
      var from := OffsetOf(watermarks, p);
      r := Materialized(p, from, from, 0);
      AtPrefix(log, applied, watermarks, p);
      NextIsNext(log, applied, p, from, batchSize);
      var events := NextBatch(log, p, from, batchSize);
      ghost var batch := events;
      CheckedExactly(p, from, batch);
      DenseBatch(log, p, from, |batch|);
      var checked := CheckEvents(p, from, events);
      if checked.Err? {
        return r, Some(checked.error);
      }
      if checked.value == [] {
        assert applied + [] == applied;
        return r, None;
      }
      var working, done, e := ApplyEvents(state, checked.value, faults);
      r := r.(last := from + done, applied := done);
      if e.Some? {
        return r, e;
      }
      if faults.committing(p) {
        return r, Some(CommitFailure);
      }
      FoldConcat(apply, init, applied, batch);
      FollowsMore(log, applied, watermarks, p, batch);
      state, watermarks, applied := working, watermarks[p := r.last], applied + batch;
      error := None;
    }

    /** One pass over the listed partitions. */
    method MaterializeOnce(log: EventLog, partitions: seq<Partition>, limited: bool, faults: Faults)
      returns (results: seq<Materialized>, error: Option<Failure>)
      requires Valid(log) && Current(log)
      modifies this
      ensures Current(log) && NoLower(old(watermarks), watermarks)
      ensures error.None? ==> |results| == |partitions|
      ensures error.None? ==> forall i :: 0 <= i < |partitions| ==>
                PassDone(log, old(watermarks), watermarks, partitions[i].Normalize(), results[i], batchSize)
      ensures Harmless(faults) && !limited && AllDense(log, partitions) ==> error.None?
    {
      hide Valid, Follows, Fold, Dense, PassDone;
      results := [];
      if limited {
        return results, Some(PartitionLimit);
      }
      ghost var before := watermarks;
      var i := 0;
      while i < |partitions|
        invariant 0 <= i <= |partitions| && |results| == i && Current(log) && NoLower(before, watermarks)
        invariant forall j :: 0 <= j < i ==> PassDone(log, before, watermarks, partitions[j].Normalize(), results[j], batchSize)
      {
        ghost var mid := watermarks;
        var r, e := MaterializePartition(log, partitions[i], faults);
        results := results + [r];
        if e.Some? {
          return results, e;
        }
        InPrefix(log, applied, watermarks);
        PassKept(log, before, mid, watermarks, batchSize);
        PassMade(log, before, mid, watermarks, r, batchSize);
        i := i + 1;
      }
      error := None;
    }

    /** Repeat passes while one of them filled a batch. */
    method DrainOnce(log: EventLog, partitions: seq<Partition>, limited: bool, faults: Faults)
      returns (results: seq<Materialized>, error: Option<Failure>)
      requires Valid(log) && Current(log)
      modifies this
      ensures Current(log) && NoLower(old(watermarks), watermarks)
      ensures error.None? ==> forall i :: 0 <= i < |partitions| ==> CaughtUp(log, watermarks, partitions[i].Normalize())
      ensures Harmless(faults) && !limited && AllDense(log, partitions) ==> error.None?
    {
      hide Valid, Follows, Fold, Dense;
      results := [];
      RemainingCounts(log, applied, watermarks, partitions);
      while true
        invariant Current(log) && NoLower(old(watermarks), watermarks)
        invariant Remaining(log, watermarks, partitions) >= 0
        decreases Remaining(log, watermarks, partitions)
      {
        ghost var before := watermarks;
        var batch, e := MaterializeOnce(log, partitions, limited, faults);
        results := results + batch;
        if e.Some? {
          return results, e;
        }
        RemainingCounts(log, applied, watermarks, partitions);
        var more, at := ShouldContinue(batch, batchSize);
        if !more {
          return results, None;
        }
        RemainingShrinks(log, before, watermarks, partitions, at);
      }
    }
  }

  method ShouldContinue(results: seq<Materialized>, batchSize: int) returns (more: bool, ghost at: int)
    ensures more <==> exists i :: 0 <= i < |results| && results[i].applied >= PageSize(batchSize)
    ensures more ==> 0 <= at < |results| && results[at].applied >= PageSize(batchSize)
  {
    at := 0;
    var k := 0;
    while k < |results|
      invariant 0 <= k <= |results| && forall i :: 0 <= i < k ==> results[i].applied < PageSize(batchSize)
    {
      if results[k].applied >= PageSize(batchSize) {
        return true, k;
      }
      k := k + 1;
    }
    more := false;
  }

  /** One partition of a pass: its watermark moved by what was applied, and it is at
      its last event unless a whole batch was. */
  ghost predicate PassDone(log: EventLog, before: map<Partition, int>, after: map<Partition, int>, p: Partition,
                           r: Materialized, batchSize: int) {
    && OffsetOf(before, p) + r.applied <= OffsetOf(after, p) <= |PartitionOf(log.stream, p)|
    && (r.applied < PageSize(batchSize) ==> CaughtUp(log, after, p))
  }

  ghost predicate InLog(log: EventLog, watermarks: map<Partition, int>) {
    forall p :: OffsetOf(watermarks, p) <= |PartitionOf(log.stream, p)|
  }

  lemma InPrefix(log: EventLog, applied: seq<EventMessage>, watermarks: map<Partition, int>)
    requires Follows(log, applied, watermarks)
    ensures InLog(log, watermarks)
  {
    forall p ensures OffsetOf(watermarks, p) <= |PartitionOf(log.stream, p)| {
      AtPrefix(log, applied, watermarks, p);
    }
  }

  lemma PassKept(log: EventLog, before: map<Partition, int>, mid: map<Partition, int>, after: map<Partition, int>,
                 batchSize: int)
    requires NoLower(mid, after) && InLog(log, after)
    ensures forall p, r :: PassDone(log, before, mid, p, r, batchSize) ==> PassDone(log, before, after, p, r, batchSize)
  {
    hide PartitionOf;
  }

  lemma PassMade(log: EventLog, before: map<Partition, int>, mid: map<Partition, int>, after: map<Partition, int>,
                 r: Materialized, batchSize: int)
    requires NoLower(before, mid) && InLog(log, after)
    requires OffsetOf(after, r.partition) == OffsetOf(mid, r.partition) + r.applied
    requires r.applied < PageSize(batchSize) ==> CaughtUp(log, after, r.partition)
    ensures PassDone(log, before, after, r.partition, r, batchSize)
  {
  }

  lemma AtPrefix(log: EventLog, applied: seq<EventMessage>, watermarks: map<Partition, int>, p: Partition)
    requires Follows(log, applied, watermarks)
    ensures PrefixApplied(log, applied, p, OffsetOf(watermarks, p))
    ensures OffsetOf(watermarks, p) <= |PartitionOf(log.stream, p)|
  {
    assert PrefixApplied(log, applied, p, OffsetOf(watermarks, p));
  }

  lemma DenseBatch(log: EventLog, p: Partition, from: nat, n: nat)
    requires from + n <= |PartitionOf(log.stream, p)|
    ensures Dense(PartitionOf(log.stream, p)) ==> Consecutive(PartitionOf(log.stream, p)[from..from + n], from)
  {
  }
}
