/** The whole write path as a step relation: gateways produce commands, any number
    of workers read the committed offset, fetch, decide, submit transactions and
    observe their outcome, and every worker may stop at any point.  Nothing keeps
    two workers off one partition, and a submitted transaction may take effect
    late, repeatedly, or never. */
module ExactlyOnce {
  import opened LogModel
  import opened BrokerEventLog
  import opened CommandEventTransaction
  import opened Decisions
  import opened Delivery
  import opened PostCommitCheck
  import C = BrokerCommandLog
  import S = TransactionStore

  type WorkerId = nat

  datatype Submission = Submission(partition: Partition, records: seq<C.CommandRecord>)

  datatype Worker =
    | Idle
    | Started(partition: Partition, committed: int)
    | Draining(partition: Partition, last: int, records: seq<C.CommandRecord>)
    | Finalizing(partition: Partition, last: int, records: seq<C.CommandRecord>, count: nat)

  datatype State = State(
    commands: C.CommandLog, events: EventLog, workers: map<WorkerId, Worker>,
    inflight: set<Submission>, acknowledged: set<Submission>)

  datatype Step =
    | Produce(now: int, partition: Partition, record: C.CommandRecord)
    | ForeignAppend(partition: Partition, event: EventRecord)
    | SeedTail(partition: Partition, offset: int)
    | ReadCommitted(w: WorkerId, partition: Partition, offset: int)
    | Fetch(w: WorkerId, limit: int)
    | Submit(w: WorkerId, count: nat)
    | Deliver(submission: Submission)
    | Confirm(w: WorkerId)
    | GiveUp(w: WorkerId)

  function PositionOf(sub: Submission): CommitPosition
    requires sub.records != []
  {
    var last := sub.records[|sub.records| - 1];
    CommitPosition(sub.partition, last.offset, last.source)
  }

  function WorkerOf(s: State, w: WorkerId): Worker {
    if w in s.workers then s.workers[w] else Idle
  }

  const Init := State(C.CommandLog([], map[]), EmptyLog, map[], {}, {})

  /** A transaction taking effect, exactly as the store performs it. */
  ghost predicate Delivers(decide: Decider, s: State, s': State, sub: Submission) {
    && sub in s.inflight && sub.records != []
    && var events := DecidedEvents(decide, sub.records);
    var position := PositionOf(sub);
    if S.StoreAccepts(s.commands, s.events, position, events) then
      && var b := AppendAll(s.events, S.Requests(events));
      && b.Ok?
      && s' == s.(commands := s.commands.(committed := C.Commit(s.commands.committed, position.partition, position.offset)),
                  events := b.value.log,
                  acknowledged := if PostCheck(false, S.Requests(events), b.value.messages) then s.acknowledged + {sub}
                                  else s.acknowledged)
    else s' == s
  }

  ghost predicate NextStep(decide: Decider, s: State, s': State, step: Step) {
    match step
    case Produce(now, partition, record) =>
      var r := C.AppendCommand(s.commands, now, partition, record);
      r.Ok? && s' == s.(commands := r.value.log)
    case ForeignAppend(partition, event) =>
      var r := Append(s.events, partition, event);
      !event.id.Decided? && r.Ok? && s' == s.(events := r.value.log)
    case SeedTail(partition, offset) =>
      s' == s.(events := Seed(s.events, partition, offset))
    case ReadCommitted(w, partition, offset) =>
      // The log's own answer, or a lower one where an index answers for the log.
      && 0 <= offset <= s.commands.Committed(partition.Normalize())
      && s' == s.(workers := s.workers[w := Started(partition.Normalize(), offset)])
    case Fetch(w, limit) =>
      var k := WorkerOf(s, w);
      && k.Started?
      && var fetched := Limit(After(PartitionOf(s.commands.stream, k.partition), k.committed), limit);
      s' == s.(workers := s.workers[w := Draining(k.partition, k.committed, Data(fetched))])
    case Submit(w, count) =>
      var k := WorkerOf(s, w);
      && k.Draining? && 1 <= count <= |k.records|
      && s' == s.(workers := s.workers[w := Finalizing(k.partition, k.last, k.records, count)],
                  inflight := s.inflight + {Submission(k.partition, k.records[..count])})
    case Deliver(sub) => Delivers(decide, s, s', sub)
    case Confirm(w) =>
      var k := WorkerOf(s, w);
      && k.Finalizing? && k.count <= |k.records|
      && Submission(k.partition, k.records[..k.count]) in s.acknowledged
      && s' == s.(workers := s.workers[w := Draining(k.partition, k.last + k.count, k.records[k.count..])])
    case GiveUp(w) => s' == s.(workers := s.workers[w := Idle])
  }

  ghost predicate Next(decide: Decider, s: State, s': State) {
    exists step :: NextStep(decide, s, s', step)
  }

  ghost predicate Run(decide: Decider, states: seq<State>) {
    && states != [] && states[0] == Init
    && forall i :: 0 <= i < |states| - 1 ==> Next(decide, states[i], states[i + 1])
  }

  // ---- The invariant ------------------------------------------------------------

  /** The commands of p at or below the committed offset. */
  ghost function Done(log: C.CommandLog, p: Partition): seq<C.CommandRecord>
    requires 0 <= log.Committed(p) <= log.Tail(p)
  {
    Commands(log, p)[..log.Committed(p)]
  }

  ghost predicate Settled(decide: Decider, commands: C.CommandLog, events: EventLog, p: Partition) {
    0 <= commands.Committed(p) <= commands.Tail(p) && InStep(decide, events, p, Done(commands, p))
  }

  /** Records held by a worker are still what the log says at those offsets, and
      everything before them is committed. */
  ghost predicate Held(log: C.CommandLog, p: Partition, last: int, records: seq<C.CommandRecord>) {
    && 0 <= last <= log.Committed(p)
    && last + |records| <= log.Tail(p)
    && records == Commands(log, p)[last..last + |records|]
  }

  ghost predicate SubmissionSound(log: C.CommandLog, sub: Submission) {
    && sub.partition.Normal() && sub.records != []
    && Held(log, sub.partition, sub.records[0].offset - 1, sub.records)
  }

  ghost predicate WorkerSound(log: C.CommandLog, k: Worker) {
    match k
    case Idle => true
    case Started(p, committed) => p.Normal() && 0 <= committed <= log.Committed(p)
    case Draining(p, last, records) => p.Normal() && Held(log, p, last, records)
    case Finalizing(p, last, records, count) => p.Normal() && Held(log, p, last, records) && 1 <= count <= |records|
  }

  ghost predicate Durable(log: C.CommandLog, sub: Submission) {
    sub.records != [] && sub.records[|sub.records| - 1].offset <= log.Committed(sub.partition)
  }

  ghost predicate Inv(decide: Decider, s: State) {
    && C.Valid(s.commands) && Valid(s.events)
    && (forall p :: Settled(decide, s.commands, s.events, p))
    && (forall w :: w in s.workers ==> WorkerSound(s.commands, s.workers[w]))
    && (forall sub :: sub in s.inflight ==> SubmissionSound(s.commands, sub))
    && (forall sub :: sub in s.acknowledged ==> Durable(s.commands, sub))
  }

  // ---- Every step keeps it --------------------------------------------------------

  /** Commands are only appended and committed offsets only grow. */
  ghost predicate Grows(log: C.CommandLog, log': C.CommandLog) {
    && (forall p :: Commands(log, p) <= Commands(log', p))
    && (forall p :: log.Committed(p) <= log'.Committed(p))
  }

  lemma HeldGrows(log: C.CommandLog, log': C.CommandLog, p: Partition, last: int, records: seq<C.CommandRecord>)
    requires Grows(log, log') && Held(log, p, last, records)
    ensures Held(log', p, last, records)
  {
    hide Commands;
    assert Commands(log, p) <= Commands(log', p);
    assert log.Committed(p) <= log'.Committed(p);
  }

  ghost predicate LocalsSound(log: C.CommandLog, s: State) {
    && (forall w :: w in s.workers ==> WorkerSound(log, s.workers[w]))
    && (forall sub :: sub in s.inflight ==> SubmissionSound(log, sub))
    && (forall sub :: sub in s.acknowledged ==> Durable(log, sub))
  }

  lemma LocalsGrow(log: C.CommandLog, log': C.CommandLog, s: State)
    requires Grows(log, log') && LocalsSound(log, s)
    ensures LocalsSound(log', s)
  {
    hide Commands, Held;
    forall w | w in s.workers ensures WorkerSound(log', s.workers[w]) {
      var k := s.workers[w];
      assert WorkerSound(log, k);
      if k.Draining? || k.Finalizing? {
        HeldGrows(log, log', k.partition, k.last, k.records);
      } else if k.Started? {
        assert log.Committed(k.partition) <= log'.Committed(k.partition);
      }
    }
    forall sub | sub in s.inflight ensures SubmissionSound(log', sub) {
      assert SubmissionSound(log, sub);
      HeldGrows(log, log', sub.partition, sub.records[0].offset - 1, sub.records);
    }
    forall sub | sub in s.acknowledged ensures Durable(log', sub) {
      assert Durable(log, sub);
      assert log.Committed(sub.partition) <= log'.Committed(sub.partition);
    }
  }

  lemma ProduceKeeps(decide: Decider, s: State, s': State, now: int, partition: Partition, record: C.CommandRecord)
    requires Inv(decide, s) && NextStep(decide, s, s', Produce(now, partition, record))
    ensures Inv(decide, s')
  {
    hide C.Valid, Valid, WorkerSound, SubmissionSound, Durable, InStep, C.AppendCommand;
    C.AppendCommandValid(s.commands, now, partition, record);
    assert Grows(s.commands, s'.commands) by {
      forall p ensures Commands(s.commands, p) <= Commands(s'.commands, p) {
        assert PartitionOf(s.commands.stream, p) <= PartitionOf(s'.commands.stream, p);
      }
    }
    LocalsGrow(s.commands, s'.commands, s);
    forall p ensures Settled(decide, s'.commands, s'.events, p) {
      assert Settled(decide, s.commands, s.events, p);
      assert Commands(s.commands, p) <= Commands(s'.commands, p);
      assert Done(s'.commands, p) == Done(s.commands, p);
    }
  }

  lemma ForeignKeeps(decide: Decider, s: State, s': State, partition: Partition, event: EventRecord)
    requires Inv(decide, s) && NextStep(decide, s, s', ForeignAppend(partition, event))
    ensures Inv(decide, s')
  {
    hide C.Valid, Valid, WorkerSound, SubmissionSound, Durable;
    AppendEventValid(s.events, partition, event);
    var a := Append(s.events, partition, event).value;
    forall p ensures Settled(decide, s'.commands, s'.events, p) {
      assert Settled(decide, s.commands, s.events, p);
      OriginAppend(s.events.stream, a.message, p);
    }
  }

  lemma SeedKeeps(decide: Decider, s: State, s': State, partition: Partition, offset: int)
    requires Inv(decide, s) && NextStep(decide, s, s', SeedTail(partition, offset))
    ensures Inv(decide, s')
  {
    hide C.Valid, Valid, WorkerSound, SubmissionSound, Durable;
    SeedValid(s.events, partition, offset);
    forall p ensures Settled(decide, s'.commands, s'.events, p) {
      assert Settled(decide, s.commands, s.events, p);
    }
  }

  /** What a fetch after a committed offset hands to a worker. */
  lemma FetchHolds(log: C.CommandLog, p: Partition, committed: int, limit: int)
    requires C.Valid(log) && 0 <= committed <= log.Committed(p) <= log.Tail(p)
    ensures Held(log, p, committed, Data(Limit(After(PartitionOf(log.stream, p), committed), limit)))
  {
    hide C.Valid, After, PartitionOf, Dense, Data;
    var messages := PartitionOf(log.stream, p);
    C.DenseOf(log, p);
    DenseFetch(messages, committed);
    DataSlice(messages, committed, limit);
  }

  lemma DenseFetch<R>(messages: seq<Message<R>>, from: nat)
    requires Dense(messages) && from <= |messages|
    ensures After(messages, from) == messages[from..]
  {
    AfterFrom(messages, from, from);
  }

  lemma DataSlice<R>(messages: seq<Message<R>>, from: nat, limit: int)
    requires from <= |messages|
    ensures
      var fetched := Limit(messages[from..], limit);
      from + |fetched| <= |messages| && Data(fetched) == Data(messages)[from..from + |fetched|]
  {
    var fetched := Limit(messages[from..], limit);
    forall k | 0 <= k < |fetched| ensures Data(fetched)[k] == Data(messages)[from..from + |fetched|][k] {
      assert fetched[k] == messages[from + k];
    }
  }

  /** A worker moves: its new state and what it put in flight must be sound. */
  lemma MoveKeeps(decide: Decider, s: State, w: WorkerId, k: Worker, sent: set<Submission>)
    requires Inv(decide, s) && WorkerSound(s.commands, k)
    requires forall sub :: sub in sent ==> SubmissionSound(s.commands, sub)
    ensures Inv(decide, s.(workers := s.workers[w := k], inflight := s.inflight + sent))
  {
    hide C.Valid, Valid, WorkerSound, SubmissionSound, Settled, Durable;
  }

  lemma LocalKeeps(decide: Decider, s: State, s': State, step: Step)
    requires Inv(decide, s) && NextStep(decide, s, s', step)
    requires step.ReadCommitted? || step.Fetch? || step.GiveUp?
    ensures Inv(decide, s')
  {
    hide C.Valid, Inv, Held, Delivers, Commands;
    var w := step.w;
    if step.ReadCommitted? {
      CommittedInTail(decide, s, step.partition.Normalize());
    } else if step.Fetch? {
      var k := WorkerSoundOf(decide, s, w);
      CommittedInTail(decide, s, k.partition);
      ValidOf(decide, s);
      FetchHolds(s.commands, k.partition, k.committed, step.limit);
    }
    MoveKeeps(decide, s, w, s'.workers[w], {});
    assert s.inflight + {} == s.inflight;
  }

  lemma FinalizeKeeps(decide: Decider, s: State, s': State, step: Step)
    requires Inv(decide, s) && NextStep(decide, s, s', step) && (step.Submit? || step.Confirm?)
    ensures Inv(decide, s')
  {
    hide C.Valid, Inv, Held, SubmissionSound, Delivers, Commands;
    var w := step.w;
    var k := WorkerSoundOf(decide, s, w);
    ValidOf(decide, s);
    var count := if step.Submit? then step.count else k.count;
    var sub := Submission(k.partition, k.records[..count]);
    HeldPart(s.commands, k.partition, k.last, k.records, count);
    if step.Confirm? {
      AcknowledgedIsDurable(decide, s, sub);
      MoveKeeps(decide, s, w, s'.workers[w], {});
      assert s.inflight + {} == s.inflight;
    } else {
      MoveKeeps(decide, s, w, s'.workers[w], {sub});
    }
  }

  lemma WorkerSoundOf(decide: Decider, s: State, w: WorkerId) returns (k: Worker)
    requires Inv(decide, s)
    ensures k == WorkerOf(s, w) && WorkerSound(s.commands, k)
  {
    hide C.Valid, Valid, Settled;
    k := WorkerOf(s, w);
  }

  lemma ValidOf(decide: Decider, s: State)
    requires Inv(decide, s)
    ensures C.Valid(s.commands) && Valid(s.events)
  {
  }

  lemma AcknowledgedIsDurable(decide: Decider, s: State, sub: Submission)
    requires Inv(decide, s) && sub in s.acknowledged
    ensures Durable(s.commands, sub)
  {
  }

  lemma CommittedInTail(decide: Decider, s: State, p: Partition)
    requires Inv(decide, s)
    ensures 0 <= s.commands.Committed(p) <= s.commands.Tail(p)
  {
    assert Settled(decide, s.commands, s.events, p);
  }

  lemma HeldPart(log: C.CommandLog, p: Partition, last: int, records: seq<C.CommandRecord>, count: nat)
    requires C.Valid(log) && p.Normal() && Held(log, p, last, records) && 1 <= count <= |records|
    ensures SubmissionSound(log, Submission(p, records[..count]))
    ensures records[..count][0].offset == last + 1
    ensures records[..count][count - 1].offset == last + count
    ensures last + count <= log.Committed(p) ==> Held(log, p, last + count, records[count..])
  {
    hide C.Valid, Commands;
    var all := Commands(log, p);
    AllPlaced(log, p);
    assert records[0] == all[last] && records[count - 1] == all[last + count - 1];
    assert records[..count] == all[last..last + count];
    assert records[count..] == all[last + count..last + |records|];
  }

  /** A sound submission is a committed part followed by a part that extends it. */
  ghost predicate Divided(log: C.CommandLog, sub: Submission, f: nat, overlap: seq<C.CommandRecord>,
                          later: seq<C.CommandRecord>)
    requires 0 <= log.Committed(sub.partition) <= log.Tail(sub.partition)
  {
    && Submitted(sub.partition, Done(log, sub.partition), f, overlap, later)
    && sub.records == overlap + later && sub.records != []
    && PositionOf(sub).offset == f + |sub.records| <= log.Tail(sub.partition) && PositionOf(sub).source.NoSource?
    && |Done(log, sub.partition)| + |later| == (if PositionOf(sub).offset > log.Committed(sub.partition)
                                                then PositionOf(sub).offset else log.Committed(sub.partition))
    && Done(log, sub.partition) + later <= Commands(log, sub.partition)
  }

  lemma Divide(log: C.CommandLog, sub: Submission)
    returns (f: nat, overlap: seq<C.CommandRecord>, later: seq<C.CommandRecord>)
    requires C.Valid(log) && SubmissionSound(log, sub) && 0 <= log.Committed(sub.partition) <= log.Tail(sub.partition)
    ensures Divided(log, sub, f, overlap, later)
  {
    hide C.Valid, Commands;
    AllPlaced(log, sub.partition);
    f := sub.records[0].offset - 1;
    if f + |sub.records| <= log.Committed(sub.partition) {
      overlap, later := sub.records, [];
      DivideDone(log, sub, f);
    } else {
      var all, c := Commands(log, sub.partition), log.Committed(sub.partition);
      overlap, later := all[f..c], all[c..f + |sub.records|];
      DivideAcross(log, sub, f, overlap, later);
    }
  }

  lemma DivideDone(log: C.CommandLog, sub: Submission, f: nat)
    requires SubmissionSound(log, sub) && 0 <= log.Committed(sub.partition) <= log.Tail(sub.partition)
    requires Slice(Commands(log, sub.partition), sub.partition, 0)
    requires f == sub.records[0].offset - 1 && f + |sub.records| <= log.Committed(sub.partition)
    ensures Divided(log, sub, f, sub.records, [])
  {
    hide Commands;
    var all, c := Commands(log, sub.partition), log.Committed(sub.partition);
    assert sub.records == all[..c][f..f + |sub.records|];
    assert sub.records[|sub.records| - 1] == all[f + |sub.records| - 1];
    assert all[..c] + [] == all[..c] && sub.records + [] == sub.records;
  }

  lemma DivideAcross(log: C.CommandLog, sub: Submission, f: nat, overlap: seq<C.CommandRecord>,
                     later: seq<C.CommandRecord>)
    requires SubmissionSound(log, sub) && 0 <= log.Committed(sub.partition) <= log.Tail(sub.partition)
    requires Slice(Commands(log, sub.partition), sub.partition, 0)
    requires f == sub.records[0].offset - 1 && f + |sub.records| > log.Committed(sub.partition)
    requires overlap == Commands(log, sub.partition)[f..log.Committed(sub.partition)]
    requires later == Commands(log, sub.partition)[log.Committed(sub.partition)..f + |sub.records|]
    ensures Divided(log, sub, f, overlap, later)
  {
    hide Commands, Submitted, Slice;
    var all, c := Commands(log, sub.partition), log.Committed(sub.partition);
    var to := f + |sub.records|;
    SubmittedAcross(sub.partition, all, f, c, to);
    LastOf(sub.partition, all, sub.records, f, to);
    Joins(all, f, c, to);
  }

  lemma Joins(all: seq<C.CommandRecord>, f: nat, c: nat, to: nat)
    requires f <= c <= to <= |all|
    ensures all[f..c] + all[c..to] == all[f..to] && all[..c] + all[c..to] <= all
  {
  }

  lemma LastOf(p: Partition, all: seq<C.CommandRecord>, records: seq<C.CommandRecord>, f: nat, to: nat)
    requires Slice(all, p, 0) && f < to <= |all| && records == all[f..to]
    ensures records[|records| - 1].offset == to && records[|records| - 1].source.NoSource?
  {
    assert records[|records| - 1] == all[to - 1];
  }

  lemma SubmittedAcross(p: Partition, all: seq<C.CommandRecord>, f: nat, c: nat, to: nat)
    requires Slice(all, p, 0) && f <= c <= to <= |all|
    ensures Submitted(p, all[..c], f, all[f..c], all[c..to])
  {
    assert all[..c][f..c] == all[f..c];
  }

  lemma AllPlaced(log: C.CommandLog, p: Partition)
    requires C.Valid(log)
    ensures Slice(Commands(log, p), p, 0)
  {
    hide C.Valid, Commands;
    forall i | 0 <= i < |Commands(log, p)|
      ensures Commands(log, p)[i].partition == p && Commands(log, p)[i].offset == i + 1
      ensures Commands(log, p)[i].source.NoSource? && Logged(Commands(log, p)[i])
    {
      CommandsPlaced(log, p, i);
    }
  }

  lemma DivideSubmits(log: C.CommandLog, sub: Submission, f: nat, overlap: seq<C.CommandRecord>,
                      later: seq<C.CommandRecord>)
    requires 0 <= log.Committed(sub.partition) <= log.Tail(sub.partition) && Divided(log, sub, f, overlap, later)
    ensures Submitted(sub.partition, Done(log, sub.partition), f, overlap, later) && sub.records == overlap + later
    ensures 0 < PositionOf(sub).offset <= log.Tail(sub.partition) && PositionOf(sub).source.NoSource?
  {
  }

  lemma RequestsSame(records: seq<EventRecord>)
    requires forall i :: 0 <= i < |records| ==> records[i].partition.Normal() && records[i].offset == 0
    ensures S.Requests(records) == records
  {
  }

  /** In every such state, a submission is accepted by the store and survives the
      check made after its commit. */
  lemma DeliveryAccepted(decide: Decider, s: State, sub: Submission)
    requires Stable(decide) && Inv(decide, s) && sub in s.inflight
    ensures SubmissionSound(s.commands, sub)
    ensures
      var events := DecidedEvents(decide, sub.records);
      && S.Requests(events) == events
      && S.StoreAccepts(s.commands, s.events, PositionOf(sub), events)
      && AppendAll(s.events, events).Ok?
      && PostCheck(false, events, AppendAll(s.events, events).value.messages)
  {
    hide C.Valid, Valid, Stable, RecordsAccepted, PostCheck, AppendAll, StoredThenNew, InStep, DecidedEvents,
         WorkerSound, Durable;
    assert SubmissionSound(s.commands, sub);
    var p := sub.partition;
    assert Settled(decide, s.commands, s.events, p);
    var events := DecidedEvents(decide, sub.records);
    var f, overlap, later := Divide(s.commands, sub);
    DivideSubmits(s.commands, sub, f, overlap, later);
    SubmissionAccepted(decide, s.events, p, Done(s.commands, p), f, overlap, later);
    SubmissionWellFormed(decide, s.commands, p, Done(s.commands, p), f, overlap, later);
    RequestsSame(events);
    NativePostCheck(false, s.events, events);
  }

  lemma SubmissionWellFormed(decide: Decider, log: C.CommandLog, p: Partition, done: seq<C.CommandRecord>, f: nat,
                             overlap: seq<C.CommandRecord>, later: seq<C.CommandRecord>)
    requires Stable(decide) && Submitted(p, done, f, overlap, later)
    ensures S.WellFormed(DecidedEvents(decide, overlap + later))
    ensures forall i :: 0 <= i < |DecidedEvents(decide, overlap + later)| ==>
              DecidedEvents(decide, overlap + later)[i].partition.Normal() && DecidedEvents(decide, overlap + later)[i].offset == 0
  {
    hide Stable, DecidedEvents;
    var events := DecidedEvents(decide, overlap + later);
    assert Slice(overlap + later, p, f);
    DecidedOffsets(decide, overlap + later, p, f);
    forall i | 0 <= i < |events|
      ensures events[i].id != NoId && Encodable(events[i]) && events[i].ts > 0
      ensures events[i].partition.Normal() && events[i].offset == 0
    {
      assert DecidedIn(events[i], p, f, f + |overlap + later|);
    }
  }

  lemma DeliverKeeps(decide: Decider, s: State, s': State, sub: Submission)
    requires Stable(decide) && Inv(decide, s) && NextStep(decide, s, s', Deliver(sub))
    ensures Inv(decide, s')
  {
    hide C.Valid, Valid, Stable, PostCheck, AppendAll, InStep, DecidedEvents, WorkerSound, SubmissionSound,
         S.StoreAccepts, S.Requests, Grows, Divided;
    DeliveryAccepted(decide, s, sub);
    SoundIsNormal(s.commands, sub);
    var p := sub.partition;
    assert Settled(decide, s.commands, s.events, p);
    var f, overlap, later := Divide(s.commands, sub);
    DivideSubmits(s.commands, sub, f, overlap, later);
    SubmissionEffect(decide, s.events, p, Done(s.commands, p), f, overlap, later);
    CommitKeeps(s.commands, p, PositionOf(sub).offset);
    LocalsGrow(s.commands, s'.commands, s);
    forall q ensures Settled(decide, s'.commands, s'.events, q) {
      assert Settled(decide, s.commands, s.events, q);
      if q == p {
        SettledAfter(decide, s.commands, s'.events, sub, f, overlap, later);
      } else {
        SettledElsewhere(decide, s.commands, s.events, s'.commands, s'.events, q);
      }
    }
    assert Durable(s'.commands, sub);
  }

  lemma SettledAfter(decide: Decider, log: C.CommandLog, events: EventLog, sub: Submission, f: nat,
                     overlap: seq<C.CommandRecord>, later: seq<C.CommandRecord>)
    requires 0 <= log.Committed(sub.partition) <= log.Tail(sub.partition) && sub.partition.Normal()
    requires Divided(log, sub, f, overlap, later)
    requires InStep(decide, events, sub.partition, Done(log, sub.partition) + later)
    ensures Settled(decide, log.(committed := C.Commit(log.committed, sub.partition, PositionOf(sub).offset)), events,
                    sub.partition)
  {
    hide Commands, InStep;
    var log' := log.(committed := C.Commit(log.committed, sub.partition, PositionOf(sub).offset));
    CommandsStay(log, log', sub.partition);
    assert Done(log', sub.partition) == Done(log, sub.partition) + later;
  }

  lemma SettledElsewhere(decide: Decider, log: C.CommandLog, events: EventLog, log': C.CommandLog, events': EventLog,
                         q: Partition)
    requires Settled(decide, log, events, q) && log'.stream == log.stream && log'.Committed(q) == log.Committed(q)
    requires Origin(events'.stream, q) == Origin(events.stream, q)
    ensures Settled(decide, log', events', q)
  {
    hide Commands;
    CommandsStay(log, log', q);
    assert Done(log', q) == Done(log, q);
  }

  lemma SoundIsNormal(log: C.CommandLog, sub: Submission)
    requires SubmissionSound(log, sub)
    ensures sub.partition.Normal()
  {
  }

  lemma CommandsStay(log: C.CommandLog, log': C.CommandLog, p: Partition)
    requires log.stream == log'.stream
    ensures Commands(log, p) == Commands(log', p)
  {
  }

  lemma CommitKeeps(log: C.CommandLog, p: Partition, offset: int)
    requires C.Valid(log) && p.Normal() && offset > 0
    ensures C.Valid(log.(committed := C.Commit(log.committed, p, offset)))
    ensures Grows(log, log.(committed := C.Commit(log.committed, p, offset)))
  {
  }

  lemma NextKeeps(decide: Decider, s: State, s': State)
    requires Stable(decide) && Inv(decide, s) && Next(decide, s, s')
    ensures Inv(decide, s')
  {
    hide Stable, Inv, NextStep;
    var step :| NextStep(decide, s, s', step);
    match step {
      case Produce(now, partition, record) => ProduceKeeps(decide, s, s', now, partition, record);
      case ForeignAppend(partition, event) => ForeignKeeps(decide, s, s', partition, event);
      case SeedTail(partition, offset) => SeedKeeps(decide, s, s', partition, offset);
      case Deliver(sub) => DeliverKeeps(decide, s, s', sub);
      case Submit(_, _) => FinalizeKeeps(decide, s, s', step);
      case Confirm(_) => FinalizeKeeps(decide, s, s', step);
      case _ => LocalKeeps(decide, s, s', step);
    }
  }

  // ---- The theorems -----------------------------------------------------------------

  lemma {:induction false} RunKeeps(decide: Decider, states: seq<State>, i: nat)
    requires Stable(decide) && Run(decide, states) && i < |states|
    ensures Inv(decide, states[i])
  {
    hide Stable, Next;
    if i == 0 {
      InitHolds(decide);
    } else {
      RunKeeps(decide, states, i - 1);
      NextKeeps(decide, states[i - 1], states[i]);
    }
  }

  lemma InitHolds(decide: Decider)
    ensures Inv(decide, Init)
  {
    forall p ensures Settled(decide, Init.commands, Init.events, p) {
      assert Done(Init.commands, p) == [];
    }
  }

  /** Exactly once, over every run: what the log holds from command partition p is
      the sequence of events decided for the commands at or below its committed
      offset, in command order. */
  lemma ExactlyOnceInOrder(decide: Decider, states: seq<State>, i: nat, p: Partition)
    requires Stable(decide) && Run(decide, states) && i < |states|
    ensures
      var s := states[i];
      && 0 <= s.commands.Committed(p) <= s.commands.Tail(p)
      && Origin(s.events.stream, p) == DecidedEvents(decide, Commands(s.commands, p)[..s.commands.Committed(p)])
  {
    hide Stable, Run;
    RunKeeps(decide, states, i);
    assert Settled(decide, states[i].commands, states[i].events, p);
  }

  /** The same, event by event: an event of the command at offset o is stored at
      exactly one place of the stream if o is committed, and nowhere otherwise. */
  lemma EachEventOnce(decide: Decider, states: seq<State>, i: nat, p: Partition, o: int, k: nat)
    requires Stable(decide) && Run(decide, states) && i < |states|
    requires 1 <= o <= states[i].commands.Tail(p)
    requires k < |EventsOf(decide(Commands(states[i].commands, p)[o - 1]))|
    ensures
      var s := states[i];
      var id := EventsOf(decide(Commands(s.commands, p)[o - 1]))[k].id;
      && (o <= s.commands.Committed(p) <==> exists a :: 0 <= a < |s.events.stream| && s.events.stream[a].data.id == id)
      && (forall a, b :: 0 <= a < b < |s.events.stream| && s.events.stream[a].data.id == id ==> s.events.stream[b].data.id != id)
  {
    hide Run, InStep, Commands;
    RunKeeps(decide, states, i);
    var s := states[i];
    var r := Commands(s.commands, p)[o - 1];
    var e := EventsOf(decide(r))[k];
    CommandsPlaced(s.commands, p, o - 1);
    assert StableDecision(r, decide(r));
    assert StableEvent(r, e);
    assert Settled(decide, s.commands, s.events, p);
    if o <= s.commands.Committed(p) {
      EventIsStored(decide, s.events, p, Done(s.commands, p), o - 1, k);
    } else {
      DoneSlice(s.commands, p);
      EventIsNotStored(decide, s.events, p, Done(s.commands, p), e.id);
    }
  }

  lemma DoneSlice(log: C.CommandLog, p: Partition)
    requires C.Valid(log) && 0 <= log.Committed(p) <= log.Tail(p)
    ensures Slice(Done(log, p), p, 0)
  {
    hide C.Valid, Commands;
    AllPlaced(log, p);
  }

  lemma EventIsStored(decide: Decider, log: EventLog, p: Partition, done: seq<C.CommandRecord>, j: nat, k: nat)
    requires InStep(decide, log, p, done) && j < |done| && k < |EventsOf(decide(done[j]))|
    ensures exists a :: 0 <= a < |log.stream| && log.stream[a].data.id == EventsOf(decide(done[j]))[k].id
  {
    hide DecidedEvents, Origin;
    var base := Segment(decide, done, j, 1);
    assert done[j..j + 1] == [done[j]];
    DecidedSingle(decide, done[j]);
    var a := OriginAt(log.stream, p, base + k);
    assert Origin(log.stream, p)[base + k] == EventsOf(decide(done[j]))[k];
    assert log.stream[a].data.id == EventsOf(decide(done[j]))[k].id;
  }

  lemma EventIsNotStored(decide: Decider, log: EventLog, p: Partition, done: seq<C.CommandRecord>, id: EventId)
    requires Stable(decide) && InStep(decide, log, p, done) && Slice(done, p, 0)
    requires DecidedFrom(id, p) && id.offset > |done|
    ensures forall a :: 0 <= a < |log.stream| ==> log.stream[a].data.id != id
  {
    hide Stable, DecidedEvents;
    DecidedOffsets(decide, done, p, 0);
    assert forall a :: 0 <= a < |Origin(log.stream, p)| ==> DecidedIn(DecidedEvents(decide, done)[a], p, 0, |done|);
    FreshNotStored(log, p, |done|, id);
  }

  /** No commit is ever reported as an error: over every run, every submitted
      transaction that reaches the store is accepted, and the messages it returns
      pass the check made after the commit. */
  lemma NoCommitIsRejected(decide: Decider, states: seq<State>, i: nat, sub: Submission)
    requires Stable(decide) && Run(decide, states) && i < |states| && sub in states[i].inflight
    ensures
      var s, events := states[i], DecidedEvents(decide, sub.records);
      && sub.records != [] && S.Requests(events) == events
      && S.StoreAccepts(s.commands, s.events, PositionOf(sub), events)
      && AppendAll(s.events, events).Ok?
      && PostCheck(false, events, AppendAll(s.events, events).value.messages)
  {
    hide Stable, Run, Inv, S.StoreAccepts, PostCheck, AppendAll;
    RunKeeps(decide, states, i);
    DeliveryAccepted(decide, states[i], sub);
    assert sub.records != [] by {
      SoundIsNormal(states[i].commands, sub);
    }
  }

  /** A worker never believes more than is durable. */
  lemma WorkersTrailTheLog(decide: Decider, states: seq<State>, i: nat, w: WorkerId)
    requires Stable(decide) && Run(decide, states) && i < |states| && w in states[i].workers
    ensures
      var s, k := states[i], states[i].workers[w];
      && (k.Started? ==> k.committed <= s.commands.Committed(k.partition))
      && (k.Draining? || k.Finalizing? ==>
            && 0 <= k.last <= s.commands.Committed(k.partition)
            && k.last + |k.records| <= s.commands.Tail(k.partition)
            && k.records == Commands(s.commands, k.partition)[k.last..k.last + |k.records|])
  {
    hide Stable, Run;
    RunKeeps(decide, states, i);
    assert WorkerSound(states[i].commands, states[i].workers[w]);
  }

  /** Both logs stay well formed over every run: command offsets are 1..tail, stream
      sequences are 1..head, an id names one message, and in a partition offsets
      increase with the stream and never pass the tail. */
  lemma LogsStayWellFormed(decide: Decider, states: seq<State>, i: nat, p: Partition)
    requires Stable(decide) && Run(decide, states) && i < |states|
    ensures
      var commands, events := states[i].commands, states[i].events;
      && C.Valid(commands) && Valid(events)
      && (forall k :: 0 <= k < |PartitionOf(commands.stream, p)| ==> PartitionOf(commands.stream, p)[k].offset == k + 1)
      && OffsetsIncrease(PartitionOf(events.stream, p))
      && (forall k :: 0 <= k < |PartitionOf(events.stream, p)| ==> PartitionOf(events.stream, p)[k].offset <= events.Tail(p))
  {
    hide Stable, Run, Valid, C.Valid, PartitionOf;
    RunKeeps(decide, states, i);
    ValidOf(decide, states[i]);
    C.DenseOf(states[i].commands, p);
    PartitionIncreases(states[i].events, p);
    forall k | 0 <= k < |PartitionOf(states[i].events.stream, p)|
      ensures PartitionOf(states[i].events.stream, p)[k].offset <= states[i].events.Tail(p)
    {
      PartitionOfSound(states[i].events.stream, p, k);
      PlacedInTail(states[i].events, PartitionOf(states[i].events.stream, p)[k]);
    }
  }

  lemma PlacedInTail(log: EventLog, m: EventMessage)
    requires Valid(log) && m in log.stream
    ensures m.offset <= log.Tail(m.partition)
  {
    var k :| 0 <= k < |log.stream| && log.stream[k] == m;
    assert WellPlaced(log, log.stream[k]);
  }

  /** The relation is not vacuous: in every reachable state a worker that holds
      records can submit any first part of them, have it delivered and confirmed,
      and is then past it with the events and the offset durable. */
  lemma WorkersGetThrough(decide: Decider, states: seq<State>, i: nat, w: WorkerId, count: nat)
    returns (s1: State, s2: State, s3: State)
    requires Stable(decide) && Run(decide, states) && i < |states| && w in states[i].workers
    requires states[i].workers[w].Draining?
    requires 1 <= count <= |states[i].workers[w].records|
    ensures
      var k := states[i].workers[w];
      var sub := Submission(k.partition, k.records[..count]);
      && NextStep(decide, states[i], s1, Submit(w, count)) && NextStep(decide, s1, s2, Deliver(sub))
      && NextStep(decide, s2, s3, Confirm(w))
      && s3.workers[w] == Draining(k.partition, k.last + count, k.records[count..])
      && k.last + count <= s3.commands.Committed(k.partition)
      && s3.commands == states[i].commands.(committed := C.Commit(states[i].commands.committed, k.partition, k.last + count))
      && S.Requests(DecidedEvents(decide, sub.records)) == DecidedEvents(decide, sub.records)
      && AppendAll(states[i].events, DecidedEvents(decide, sub.records)).Ok?
      && s3.events == AppendAll(states[i].events, DecidedEvents(decide, sub.records)).value.log
  {
    hide Stable, Inv, Run, C.Valid, AppendAll, PostCheck, DecidedEvents, S.StoreAccepts, S.Requests, Held, Commands;
    var s := states[i];
    RunKeeps(decide, states, i);
    var k := WorkerSoundOf(decide, s, w);
    ValidOf(decide, s);
    HeldPart(s.commands, k.partition, k.last, k.records, count);
    var sub := Submission(k.partition, k.records[..count]);
    s1 := s.(workers := s.workers[w := Finalizing(k.partition, k.last, k.records, count)],
             inflight := s.inflight + {sub});
    FinalizeKeeps(decide, s, s1, Submit(w, count));
    DeliveryAccepted(decide, s1, sub);
    var b := AppendAll(s.events, DecidedEvents(decide, sub.records)).value;
    s2 := s1.(commands := s.commands.(committed := C.Commit(s.commands.committed, sub.partition, PositionOf(sub).offset)),
              events := b.log, acknowledged := s.acknowledged + {sub});
    s3 := s2.(workers := s2.workers[w := Draining(k.partition, k.last + count, k.records[count..])]);
  }
}
