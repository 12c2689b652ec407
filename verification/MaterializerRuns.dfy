/** Materializers over a log that keeps growing: reads, transactions and failures of any
    number of workers interleaved with appends and seeds.  A worker reads the watermark
    before its transaction and takes no lock on it. */
module MaterializerRuns {
  import opened LogModel
  import opened BrokerEventLog
  import opened EventMaterializer

  type WorkerId = nat

  datatype System<S> = System(log: EventLog, shown: Projection<S>, held: map<WorkerId, Held>)

  datatype Move =
    | LogAppend(partition: Partition, record: EventRecord)
    | LogSeed(partition: Partition, offset: int)
    | Read(w: WorkerId, partition: Partition, limit: int)
    | Land(w: WorkerId)
    | GiveUp(w: WorkerId)

  function Landed<S>(apply: (S, EventMessage) -> S, s: System<S>, w: WorkerId): System<S>
    requires w in s.held
  {
    var r := LandOf(apply, s.shown, s.held[w]);
    s.(held := s.held - {w}, shown := if r.Ok? then r.value else s.shown)
  }

  ghost predicate Next<S>(apply: (S, EventMessage) -> S, s: System<S>, s': System<S>, move: Move) {
    match move
    case LogAppend(partition, record) =>
      var a := Append(s.log, partition, record);
      a.Ok? && s' == s.(log := a.value.log)
    case LogSeed(partition, offset) => s' == s.(log := Seed(s.log, partition, offset))
    case Read(w, partition, limit) => s' == s.(held := s.held[w := ReadNext(s.log, s.shown, partition, limit)])
    case Land(w) => w in s.held && s' == Landed(apply, s, w)
    case GiveUp(w) => s' == s.(held := s.held - {w})
  }

  ghost predicate Run<S>(apply: (S, EventMessage) -> S, init: S, states: seq<System<S>>, moves: seq<Move>) {
    && |states| == |moves| + 1 && states[0] == System(EmptyLog, Projection(init, map[], []), map[])
    && forall i :: 0 <= i < |moves| ==> Next(apply, states[i], states[i + 1], moves[i])
  }

  /** What is held is a part of the partition, from right after the watermark it was
      read at. */
  ghost predicate HeldSound(log: EventLog, held: Held) {
    && held.partition.Normal() && held.from >= 0
    && held.from + |held.events| <= |PartitionOf(log.stream, held.partition)|
    && held.events == PartitionOf(log.stream, held.partition)[held.from..held.from + |held.events|]
    && OffsetsIncrease(held.events)
    && forall i :: 0 <= i < |held.events| ==>
        held.events[i].offset > held.from && held.events[i].partition == held.partition
  }

  ghost predicate Inv<S>(apply: (S, EventMessage) -> S, init: S, s: System<S>) {
    && Valid(s.log) && s.shown.state == Fold(apply, init, s.shown.applied)
    && Follows(s.log, s.shown.applied, s.shown.watermarks)
    && forall w :: w in s.held ==> HeldSound(s.log, s.held[w])
  }

  lemma GrowKeeps<S>(apply: (S, EventMessage) -> S, init: S, s: System<S>, log': EventLog)
    requires Inv(apply, init, s) && Valid(log') && s.log.stream <= log'.stream
    ensures Inv(apply, init, s.(log := log'))
  {
    hide Valid, Fold, Follows, HeldSound;
    FollowsGrown(s.log, log', s.shown.applied, s.shown.watermarks);
    forall w | w in s.held ensures HeldSound(log', s.held[w]) {
      HeldGrows(s.log, log', s.held[w]);
    }
  }

  lemma HeldGrows(log: EventLog, log': EventLog, held: Held)
    requires HeldSound(log, held) && log.stream <= log'.stream
    ensures HeldSound(log', held)
  {
    hide PartitionOf, OffsetsIncrease;
    PartitionOfPrefix(log'.stream, held.partition, |log.stream|);
    assert log'.stream[..|log.stream|] == log.stream;
  }

  lemma AppendExtends(log: EventLog, partition: Partition, record: EventRecord)
    requires Append(log, partition, record).Ok?
    ensures log.stream <= Append(log, partition, record).value.log.stream
  {
  }

  lemma ReadKeeps<S>(apply: (S, EventMessage) -> S, init: S, s: System<S>, w: WorkerId, partition: Partition, limit: int)
    requires Inv(apply, init, s)
    ensures Inv(apply, init, s.(held := s.held[w := ReadNext(s.log, s.shown, partition, limit)]))
  {
    hide Valid, Fold, Follows, PartitionOf, NextBatch, PrefixApplied, OffsetsIncrease;
    var p := partition.Normalize();
    AtPrefix(s.log, s.shown.applied, s.shown.watermarks, p);
    NextIsNext(s.log, s.shown.applied, p, OffsetOf(s.shown.watermarks, p), limit);
  }

  // ---- Landing, exactly ----------------------------------------------------------------------------

  /** What was read starts at the watermark as it is now. */
  ghost predicate Fresh<S>(s: System<S>, w: WorkerId)
    requires w in s.held
  {
    s.held[w].from == OffsetOf(s.shown.watermarks, s.held[w].partition)
  }

  /** Landing it changes the projection. */
  ghost predicate Effective(held: Held) {
    held.events != [] && Consecutive(held.events, held.from)
  }

  lemma LandingIs<S>(apply: (S, EventMessage) -> S, s: System<S>, w: WorkerId)
    requires w in s.held && HeldSound(s.log, s.held[w])
    ensures
      var held, shown := s.held[w], s.shown;
      Landed(apply, s, w).shown ==
      if !Effective(held) then shown
      else Projection(Fold(apply, shown.state, held.events),
                      shown.watermarks[held.partition := held.from + |held.events|],
                      shown.applied + held.events)
  {
    hide PartitionOf, Fold, Checked, OffsetsIncrease, Consecutive;
    CheckedExactly(s.held[w].partition, s.held[w].from, s.held[w].events);
  }

  /** One landing keeps the projection a fold of gap-free prefixes if and only if it has
      no effect or what it brings starts at the watermark as it is when it lands. */
  lemma LandExactly<S>(apply: (S, EventMessage) -> S, init: S, s: System<S>, w: WorkerId)
    requires Inv(apply, init, s) && w in s.held
    ensures Inv(apply, init, Landed(apply, s, w)) <==> !Effective(s.held[w]) || Fresh(s, w)
  {
    hide Valid, Fold, Follows, PartitionOf, HeldSound, LandOf;
    var held, s' := s.held[w], Landed(apply, s, w);
    assert HeldSound(s.log, held);
    LandingIs(apply, s, w);
    if Effective(held) {
      FoldConcat(apply, init, s.shown.applied, held.events);
      if Fresh(s, w) {
        HeldContinues(s.log, held);
        FollowsMore(s.log, s.shown.applied, s.shown.watermarks, held.partition, held.events);
      } else if Inv(apply, init, s') {
        HeldContinues(s.log, held);
        CountsAdd(s.log, s.shown.applied, s.shown.watermarks, held, s'.shown.watermarks);
      }
    }
  }

  lemma HeldContinues(log: EventLog, held: Held)
    requires HeldSound(log, held) && Effective(held)
    ensures forall i :: 0 <= i < |held.events| ==>
              held.events[i].partition == held.partition && held.events[i].offset == held.from + i + 1
    ensures held.from + |held.events| <= |PartitionOf(log.stream, held.partition)|
    ensures held.from >= 0
    ensures held.events == PartitionOf(log.stream, held.partition)[held.from..held.from + |held.events|]
  {
    hide PartitionOf;
  }

  /** Two prefixes, one longer by what landed, fix where it started. */
  lemma CountsAdd(log: EventLog, applied: seq<EventMessage>, watermarks: map<Partition, int>, held: Held,
                  watermarks': map<Partition, int>)
    requires Follows(log, applied, watermarks) && Follows(log, applied + held.events, watermarks')
    requires forall i :: 0 <= i < |held.events| ==> held.events[i].partition == held.partition
    requires OffsetOf(watermarks', held.partition) == held.from + |held.events|
    ensures held.from == OffsetOf(watermarks, held.partition)
  {
    hide PartitionOf;
    var p := held.partition;
    PartitionOfConcat(applied, held.events, p, p);
    assert PrefixApplied(log, applied, p, OffsetOf(watermarks, p));
    assert PrefixApplied(log, applied + held.events, p, OffsetOf(watermarks', p));
  }

  /** A move that is not a stale landing. */
  ghost predicate Orderly<S>(s: System<S>, move: Move) {
    move.Land? && move.w in s.held ==> !Effective(s.held[move.w]) || Fresh(s, move.w)
  }

  lemma NextKeeps<S>(apply: (S, EventMessage) -> S, init: S, s: System<S>, s': System<S>, move: Move)
    requires Inv(apply, init, s) && Next(apply, s, s', move) && Orderly(s, move)
    ensures Inv(apply, init, s')
  {
    hide Valid, Fold, Follows, Landed, ReadNext, Append, Seed, HeldSound, Effective, Fresh;
    match move {
      case LogAppend(partition, record) =>
        AppendEventValid(s.log, partition, record);
        AppendExtends(s.log, partition, record);
        GrowKeeps(apply, init, s, s'.log);
      case LogSeed(partition, offset) =>
        SeedValid(s.log, partition, offset);
        GrowKeeps(apply, init, s, s'.log);
      case Read(w, partition, limit) => ReadKeeps(apply, init, s, w, partition, limit);
      case Land(w) => LandExactly(apply, init, s, w);
      case GiveUp(_) =>
    }
  }

  /** No stale landing among the first n moves. */
  ghost predicate AllOrderly<S>(states: seq<System<S>>, moves: seq<Move>, n: nat) {
    forall i :: 0 <= i < n && i < |moves| && i < |states| ==> Orderly(states[i], moves[i])
  }

  lemma {:induction false} RunKeeps<S>(apply: (S, EventMessage) -> S, init: S, states: seq<System<S>>, moves: seq<Move>, i: nat)
    requires Run(apply, init, states, moves) && i < |states| && AllOrderly(states, moves, i)
    ensures Inv(apply, init, states[i])
  {
    hide Next, Orderly;
    if i > 0 {
      RunKeeps(apply, init, states, moves, i - 1);
      NextKeeps(apply, init, states[i - 1], states[i], moves[i - 1]);
    }
  }

  /** In every state of every run without a stale landing, with any number of workers, the
      projection is the ordered fold of what was applied, and that is, in each partition,
      exactly its first events up to the watermark, without a gap, whatever was appended,
      seeded, dropped or failed. */
  lemma ProjectionIsAlwaysThePrefix<S>(apply: (S, EventMessage) -> S, init: S, states: seq<System<S>>, moves: seq<Move>,
                                       i: nat, p: Partition)
    requires Run(apply, init, states, moves) && i < |states| && AllOrderly(states, moves, i)
    ensures
      var s := states[i];
      var n, all := OffsetOf(s.shown.watermarks, p), PartitionOf(s.log.stream, p);
      && s.shown.state == Fold(apply, init, s.shown.applied)
      && 0 <= n <= |all| && PartitionOf(s.shown.applied, p) == all[..n]
      && (forall k :: 0 <= k < n ==> all[k].offset == k + 1)
  {
    hide Next, PartitionOf, Fold, HeldSound, Orderly;
    RunKeeps(apply, init, states, moves, i);
    var s := states[i];
    assert PrefixApplied(s.log, s.shown.applied, p, OffsetOf(s.shown.watermarks, p));
    assert forall k :: 0 <= k < |PartitionOf(s.shown.applied, p)| ==>
             PartitionOf(s.log.stream, p)[k] == PartitionOf(s.shown.applied, p)[k];
  }

  /** The condition is exact: the first stale landing of a run leaves a partition where
      the applied events are not its first ones up to the watermark. */
  lemma StaleLandingBreaks<S>(apply: (S, EventMessage) -> S, init: S, states: seq<System<S>>, moves: seq<Move>, i: nat)
    requires Run(apply, init, states, moves) && i < |moves| && AllOrderly(states, moves, i)
    requires !Orderly(states[i], moves[i])
    ensures
      var s := states[i + 1];
      var p := states[i].held[moves[i].w].partition;
      |PartitionOf(s.shown.applied, p)| != OffsetOf(s.shown.watermarks, p)
  {
    hide PartitionOf, Fold, LandOf, Consecutive, OffsetsIncrease;
    RunKeeps(apply, init, states, moves, i);
    var s, w := states[i], moves[i].w;
    var held := s.held[w];
    assert Next(apply, s, states[i + 1], moves[i]) && HeldSound(s.log, held);
    LandingIs(apply, s, w);
    PartitionOfConcat(s.shown.applied, held.events, held.partition, held.partition);
    assert PrefixApplied(s.log, s.shown.applied, held.partition, OffsetOf(s.shown.watermarks, held.partition));
  }

  // ---- What keeps landings fresh ---------------------------------------------------------------------

  /** A worker reads a partition only when no other worker holds a part of it. */
  ghost predicate Exclusive<S>(states: seq<System<S>>, moves: seq<Move>) {
    forall i, w :: 0 <= i < |moves| && i < |states| && moves[i].Read? && w in states[i].held && w != moves[i].w ==>
      states[i].held[w].partition != moves[i].partition.Normalize()
  }

  ghost predicate Apart<S>(s: System<S>) {
    && (forall w :: w in s.held ==> Fresh(s, w))
    && forall v, w :: v in s.held && w in s.held && v != w ==> s.held[v].partition != s.held[w].partition
  }

  lemma ApartKeeps<S>(apply: (S, EventMessage) -> S, s: System<S>, s': System<S>, move: Move)
    requires Apart(s) && Next(apply, s, s', move)
    requires move.Read? ==> forall w :: w in s.held && w != move.w ==> s.held[w].partition != move.partition.Normalize()
    ensures Apart(s')
  {
    hide Append, Seed, NextBatch, Checked, Fold;
    if move.Land? {
      forall v | v in s'.held ensures Fresh(s', v) {
        assert Fresh(s, v) && s.held[v].partition != s.held[move.w].partition;
      }
    }
  }

  /** One worker per partition at a time is enough: then no landing is stale. */
  lemma {:induction false} ExclusiveIsOrderly<S>(apply: (S, EventMessage) -> S, init: S,
                                                 states: seq<System<S>>, moves: seq<Move>, i: nat)
    requires Run(apply, init, states, moves) && i < |states| && Exclusive(states, moves)
    ensures Apart(states[i]) && AllOrderly(states, moves, i)
  {
    hide Next, Effective;
    if i > 0 {
      ExclusiveIsOrderly(apply, init, states, moves, i - 1);
      ApartKeeps(apply, states[i - 1], states[i], moves[i - 1]);
    }
  }

  /** The failure at an input: two workers read the one event of a partition before either
      lands, and it is applied twice under a watermark of one. */
  lemma TwoReadersApplyTwice<S>(apply: (S, EventMessage) -> S, init: S, p: Partition, e: EventRecord)
    returns (log: EventLog, m: EventMessage, s: seq<System<S>>)
    requires p.Normal() && Encodable(e) && e.offset == 0
    ensures |s| == 5 && Append(EmptyLog, p, e) == Ok(Appended(log, m))
    ensures s[0] == System(log, Projection(init, map[], []), map[])
    ensures Next(apply, s[0], s[1], Read(0, p, 10)) && Next(apply, s[1], s[2], Read(1, p, 10))
    ensures Next(apply, s[2], s[3], Land(0)) && Next(apply, s[3], s[4], Land(1))
    ensures s[4].shown == Projection(apply(apply(init, m), m), map[p := 1], [m, m])
  {
    hide Fold;
    m := NewMessage(EmptyLog, e.(partition := p));
    log := Push(EmptyLog, m);
    var held := Held(p, 0, [m]);
    OneToRead(log, p, m);
    var none := Projection(init, map[], []);
    var once := Projection(apply(init, m), map[p := 1], [m]);
    var twice := Projection(apply(apply(init, m), m), map[p := 1], [m, m]);
    OneLands(apply, none, p, m);
    OneLands(apply, once, p, m);
    var s0 := System(log, none, map[]);
    var s1 := s0.(held := map[0 := held]);
    var s2 := s0.(held := map[0 := held, 1 := held]);
    var s3 := s0.(held := map[1 := held], shown := once);
    var s4 := s0.(shown := twice);
    assert s1.held == s0.held[0 := held] && s2.held == s1.held[1 := held];
    assert s2.held - {0} == s3.held && s3.held - {1} == s4.held;
    s := [s0, s1, s2, s3, s4];
  }

  lemma OneToRead(log: EventLog, p: Partition, m: EventMessage)
    requires log.stream == [m] && m.partition == p && m.offset == 1
    ensures NextBatch(log, p, 0, 10) == [m]
  {
    assert [m][..0] == [];
    assert PartitionOf([m], p) == [m];
    assert After([m], 0) == [m];
  }

  lemma OneLands<S>(apply: (S, EventMessage) -> S, shown: Projection<S>, p: Partition, m: EventMessage)
    requires p.Normal() && m.partition == p && m.offset == 1
    ensures LandOf(apply, shown, Held(p, 0, [m])) ==
            Ok(Projection(apply(shown.state, m), shown.watermarks[p := 1], shown.applied + [m]))
  {
    hide Checked;
    CheckedExactly(p, 0, [m]);
    FoldNone(apply, shown.state, [m]);
    FoldStep(apply, shown.state, [m], 0);
    assert [m][..0 + 1] == [m];
  }
}
