/** A drain among others as a run of the whole system: whatever the worker and the
    processes beside it do to the logs, from any reachable state there are steps that
    lead to the same logs. */
module DrainRuns {
  import opened LogModel
  import opened BrokerEventLog
  import opened CommandEventTransaction
  import opened Decisions
  import opened ExactlyOnce
  import opened DrainModel
  import opened DrainSpec
  import opened WorkerRuns
  import C = BrokerCommandLog
  import S = TransactionStore

  /** The logs alone. */
  function Bare(w: World): World {
    w.(receipts := map[])
  }

  ghost predicate Ends(decide: Decider, states: seq<State>, w: World) {
    && states != [] && Run(decide, states)
    && states[|states| - 1].commands == w.commands && states[|states| - 1].events == w.events
  }

  ghost predicate Continues(decide: Decider, states: seq<State>, states': seq<State>, w: World) {
    states <= states' && Ends(decide, states', w)
  }

  /** Every run that ends in the logs of w goes on to the logs of w'. */
  ghost predicate Follows(decide: Decider, w: World, w': World) {
    forall states :: Ends(decide, states, w) ==> exists states' :: Continues(decide, states, states', w')
  }

  lemma FollowsSame(decide: Decider, w: World)
    ensures Follows(decide, w, w)
  {
    hide Run;
    forall states | Ends(decide, states, w) ensures exists states' :: Continues(decide, states, states', w) {
      assert Continues(decide, states, states, w);
    }
  }

  lemma FollowsOn(decide: Decider, a: World, b: World, c: World)
    requires Follows(decide, a, b) && Follows(decide, b, c)
    ensures Follows(decide, a, c)
  {
    hide Ends;
    forall states | Ends(decide, states, a) ensures exists states' :: Continues(decide, states, states', c) {
      var mid :| Continues(decide, states, mid, b);
      var end :| Continues(decide, mid, end, c);
      assert Continues(decide, states, end, c);
    }
  }

  /** A store call with records that the log still has, starting no later than right
      after the committed offset. */
  lemma TransactionFollows(decide: Decider, w: World, w': World, cancelled: bool, p: Partition, last: int,
                           records: seq<C.CommandRecord>, ok: bool)
    requires Stable(decide) && p.Normal() && records != [] && Held(w.commands, p, last, records)
    requires Transacted(cancelled, w, w', PositionOf(Submission(p, records)), DecidedEvents(decide, records), ok)
    ensures Follows(decide, w, w')
  {
    hide Stable, Run, Held, AppendAll, S.StoreAccepts, S.Requests, DecidedEvents, PostCheck;
    forall states | Ends(decide, states, w) ensures exists states' :: Continues(decide, states, states', w') {
      if w'.commands == w.commands && w'.events == w.events {
        assert Continues(decide, states, states, w');
      } else {
        var states' := TransactionRun(decide, states, p, last, records);
        assert Continues(decide, states, states', w');
      }
    }
  }

  /** The steps of it: read, fetch, submit, deliver, confirm. */
  lemma TransactionRun(decide: Decider, states: seq<State>, p: Partition, last: int,
                       records: seq<C.CommandRecord>) returns (states': seq<State>)
    requires Stable(decide) && p.Normal() && records != [] && states != [] && Run(decide, states)
    requires Held(states[|states| - 1].commands, p, last, records)
    ensures states <= states' && Run(decide, states')
    ensures
      var s, s', position := states[|states| - 1], states'[|states'| - 1], PositionOf(Submission(p, records));
      && s'.commands == s.commands.(committed := C.Commit(s.commands.committed, position.partition, position.offset))
      && AppendAll(s.events, S.Requests(DecidedEvents(decide, records))).Ok?
      && s'.events == AppendAll(s.events, S.Requests(DecidedEvents(decide, records))).value.log
  {
    hide Stable, Run, AppendAll, S.Requests, DecidedEvents, Commands, After, PartitionOf, Data, Limit, C.Valid, Inv;
    var s := states[|states| - 1];
    RunKeeps(decide, states, |states| - 1);
    ValidOf(decide, s);
    CommittedInTail(decide, s, p);
    HeldIsFetched(s.commands, p, last, records);
    var started := StartDraining(decide, states, 0, p, last, |records|);
    states' := GoThrough(decide, started, 0, p, last, records, |records|);
    assert records[..|records|] == records;
    HeldPart(s.commands, p, last, records, |records|);
  }

  lemma HeldIsFetched(log: C.CommandLog, p: Partition, last: int, records: seq<C.CommandRecord>)
    requires C.Valid(log) && Held(log, p, last, records) && log.Committed(p) <= log.Tail(p) && records != []
    ensures Data(Limit(After(PartitionOf(log.stream, p), last), |records|)) == records
  {
    hide C.Valid, Data, After, Dense;
    var messages := PartitionOf(log.stream, p);
    C.DenseOf(log, p);
    DenseFetch(messages, last);
    DataSlice(messages, last, |records|);
  }

  /** A command is enqueued, or refused. */
  lemma EnqueueFollows(decide: Decider, w: World, w': World, now: int, partition: Partition, record: C.CommandRecord)
    requires
      var r := C.AppendCommand(w.commands, now, partition, record);
      w'.events == w.events && w'.commands == if r.Ok? then r.value.log else w.commands
    ensures Follows(decide, w, w')
  {
    hide Run, C.AppendCommand;
    forall states | Ends(decide, states, w) ensures exists states' :: Continues(decide, states, states', w') {
      if C.AppendCommand(w.commands, now, partition, record).Ok? {
        var end: State := states[|states| - 1];
        var s := end.(commands := w'.commands);
        StepExtends(decide, states, s, Produce(now, partition, record));
        assert Continues(decide, states, states + [s], w');
      } else {
        assert Continues(decide, states, states, w');
      }
    }
  }

  // ---- What happened to the logs, call by call -----------------------------------------------------

  /** One call that reached the store, with the logs it met: another process's, or a
      transaction of this worker. */
  datatype Call =
    | Foreign(world: World, other: Other)
    | Own(world: World, cancelled: bool, position: CommitPosition, events: seq<EventRecord>)

  /** What one foreign call does to the logs. */
  ghost predicate Moved(w: World, w': World, other: Other) {
    match other
    case Enqueue(now, partition, record) =>
      var r := C.AppendCommand(w.commands, now, partition, record);
      w' == w.(commands := if r.Ok? then r.value.log else w.commands)
    case Transact(position, events) => exists ok :: Transacted(false, w, w', position, events, ok)
    case Move(partition, offset) =>
      w' == w.(commands := w.commands.(committed := C.Commit(w.commands.committed, partition, offset)))
  }

  ghost predicate Effect(call: Call, w': World) {
    match call
    case Foreign(w, other) => Moved(w, w', other)
    case Own(w, cancelled, position, events) => exists ok :: Transacted(cancelled, w, w', position, events, ok)
  }

  /** These calls, one after another, lead from w to w'. */
  ghost predicate Chain(w: World, calls: seq<Call>, w': World) {
    if calls == [] then w' == w
    else Chain(w, calls[..|calls| - 1], calls[|calls| - 1].world) && Effect(calls[|calls| - 1], w')
  }

  lemma {:induction false} ChainOn(a: World, first: seq<Call>, b: World, second: seq<Call>, c: World)
    requires Chain(a, first, b) && Chain(b, second, c)
    ensures Chain(a, first + second, c)
  {
    hide Effect;
    if second == [] {
      assert first + second == first;
    } else {
      var n := |second| - 1;
      ChainOn(a, first, b, second[..n], second[n].world);
      assert (first + second)[..|first + second| - 1] == first + second[..n];
    }
  }

  lemma ChainOne(call: Call, w': World)
    requires Effect(call, w')
    ensures Chain(call.world, [call], w')
  {
    hide Effect;
    assert [call][..0] == [];
  }

  /** The offsets of this worker's own transactions. */
  function Sent(calls: seq<Call>): seq<int> {
    if calls == [] then []
    else
      var last := calls[|calls| - 1];
      Sent(calls[..|calls| - 1]) + if last.Own? then [last.position.offset] else []
  }

  lemma {:induction false} SentOn(first: seq<Call>, second: seq<Call>)
    ensures Sent(first + second) == Sent(first) + Sent(second)
  {
    if second == [] {
      assert first + second == first;
    } else {
      var n := |second| - 1;
      SentOn(first, second[..n]);
      assert (first + second)[..|first + second| - 1] == first + second[..n];
    }
  }

  lemma SentOne(call: Call)
    ensures Sent([call]) == if call.Own? then [call.position.offset] else []
  {
    assert [call][..0] == [];
  }

  lemma SentNone()
    ensures Sent([]) == []
  {
  }

  /** A foreign call that puts the committed offset of p there. */
  ghost predicate CommitsAt(other: Other, p: Partition, offset: int) {
    match other
    case Enqueue(_, _, _) => false
    case Transact(position, _) => position.partition.Normalize() == p && position.offset == offset
    case Move(partition, o) => partition.Normalize() == p && o == offset
  }

  /** Every committed offset is where it was, or one of the calls put it there. */
  lemma {:induction false} CommitExplained(w: World, calls: seq<Call>, w': World, p: Partition)
    requires Chain(w, calls, w')
    ensures
      var offset := w'.commands.Committed(p);
      || offset == w.commands.Committed(p) || offset in Sent(calls)
      || exists i :: 0 <= i < |calls| && calls[i].Foreign? && CommitsAt(calls[i].other, p, offset)
  {
    hide Effect, CommitsAt;
    if calls != [] {
      var n := |calls| - 1;
      CommitExplained(w, calls[..n], calls[n].world, p);
      EffectCommits(calls[n], w', p);
      var before := calls[n].world.commands.Committed(p);
      if i :| 0 <= i < n && calls[..n][i].Foreign? && CommitsAt(calls[..n][i].other, p, before) {
        assert calls[i] == calls[..n][i];
      }
    }
  }

  lemma EffectCommits(call: Call, w': World, p: Partition)
    requires Effect(call, w')
    ensures
      var offset := w'.commands.Committed(p);
      || offset == call.world.commands.Committed(p) || (call.Own? && offset == call.position.offset)
      || (call.Foreign? && CommitsAt(call.other, p, offset))
  {
    hide AppendAll, S.StoreAccepts, PostCheck;
    if call.Foreign? && call.other.Enqueue? {
      EnqueueCommits(call.world.commands, call.other.now, call.other.partition, call.other.record);
    }
  }

  lemma EnqueueCommits(log: C.CommandLog, now: int, partition: Partition, record: C.CommandRecord)
    ensures
      var r := C.AppendCommand(log, now, partition, record);
      r.Ok? ==> r.value.log.committed == log.committed
  {
  }

  // ---- The processes beside the worker ---------------------------------------------------------

  /** What the rest of the system may do: enqueue, commit records it fetched, and
      nothing that moves an offset by itself. */
  ghost predicate LawfulMove(decide: Decider, w: World, other: Other) {
    match other
    case Enqueue(_, _, _) => true
    case Transact(position, events) =>
      exists sub ::
        && SubmissionSound(w.commands, sub) && position == PositionOf(sub)
        && events == DecidedEvents(decide, sub.records)
    case Move(partition, offset) => offset <= w.commands.Committed(partition.Normalize())
  }

  /** Every foreign call was lawful in the logs it met. */
  ghost predicate Lawful(decide: Decider, calls: seq<Call>) {
    forall i :: 0 <= i < |calls| && calls[i].Foreign? ==> LawfulMove(decide, calls[i].world, calls[i].other)
  }

  /** Every one of these foreign calls is lawful in the given logs. */
  ghost predicate LawfulAt(decide: Decider, w: World, others: iset<Other>) {
    forall other :: other in others ==> LawfulMove(decide, w, other)
  }

  /** What is lawful stays so while commands are added and offsets grow. */
  lemma LawfulStays(decide: Decider, w: World, w': World, other: Other)
    requires LawfulMove(decide, w, other) && Grows(w.commands, w'.commands)
    ensures LawfulMove(decide, w', other)
  {
    hide Held;
    match other {
      case Enqueue(_, _, _) =>
      case Transact(position, events) =>
        var sub :| SubmissionSound(w.commands, sub) && position == PositionOf(sub) && events == DecidedEvents(decide, sub.records);
        HeldGrows(w.commands, w'.commands, sub.partition, sub.records[0].offset - 1, sub.records);
        assert SubmissionSound(w'.commands, sub);
      case Move(partition, offset) =>
        var p := partition.Normalize();
        assert w.commands.Committed(p) <= w'.commands.Committed(p);
    }
  }

  /** Foreign calls are among those given, and every call met logs that came later. */
  ghost predicate Noted(others: iset<Other>, w: World, calls: seq<Call>) {
    forall i :: 0 <= i < |calls| ==> Grows(w.commands,
                                           calls[i].world.commands) && (calls[i].Foreign? ==> calls[i].other in others)
  }

  /** From w to w' by exactly these calls, the foreign ones among those given: commands are
      only added, offsets only grow, and if the foreign calls were lawful this is a run. */
  ghost predicate Traced(decide: Decider, others: iset<Other>, w: World, w': World, calls: seq<Call>, given: bool) {
    && Grows(w.commands, w'.commands) && Chain(w, calls, w') && Noted(others, w, calls)
    && (given && Stable(decide) && Lawful(decide, calls) ==> Follows(decide, w, w'))
  }

  lemma GrowsOn(a: C.CommandLog, b: C.CommandLog, c: C.CommandLog)
    requires Grows(a, b) && Grows(b, c)
    ensures Grows(a, c)
  {
    hide Commands;
    forall p ensures Commands(a, p) <= Commands(c, p) && a.Committed(p) <= c.Committed(p) {
      assert Commands(a, p) <= Commands(b, p) && a.Committed(p) <= b.Committed(p);
      assert Commands(b, p) <= Commands(c, p) && b.Committed(p) <= c.Committed(p);
    }
  }

  lemma GrowsSame(log: C.CommandLog)
    ensures Grows(log, log)
  {
  }

  lemma LawfulParts(decide: Decider, first: seq<Call>, second: seq<Call>)
    requires Lawful(decide, first + second)
    ensures Lawful(decide, first) && Lawful(decide, second)
  {
    hide LawfulMove;
    var all := first + second;
    forall i | 0 <= i < |first| && first[i].Foreign? ensures LawfulMove(decide, first[i].world, first[i].other) {
      assert first[i] == all[i];
    }
    forall i | 0 <= i < |second| && second[i].Foreign? ensures LawfulMove(decide, second[i].world, second[i].other) {
      assert second[i] == all[|first| + i];
    }
  }

  lemma NotedOn(others: iset<Other>, a: World, first: seq<Call>, b: World, second: seq<Call>)
    requires Noted(others, a, first) && Noted(others, b, second) && Grows(a.commands, b.commands)
    ensures Noted(others, a, first + second)
  {
    hide Grows;
    var all := first + second;
    forall i | 0 <= i < |all|
      ensures Grows(a.commands, all[i].world.commands) && (all[i].Foreign? ==> all[i].other in others)
    {
      if i < |first| {
        assert all[i] == first[i];
      } else {
        assert all[i] == second[i - |first|];
        GrowsOn(a.commands, b.commands, all[i].world.commands);
      }
    }
  }

  lemma TracedSame(decide: Decider, others: iset<Other>, w: World, given: bool)
    ensures Traced(decide, others, w, w, [], given)
  {
    hide Grows, Follows;
    GrowsSame(w.commands);
    FollowsSame(decide, w);
  }

  /** Two traced parts make a traced whole; what the second needs holds when what the
      first needs does. */
  lemma TracedOn(decide: Decider, others: iset<Other>, a: World, b: World, c: World, first: seq<Call>,
                 second: seq<Call>,
                 given: bool, later: bool)
    requires Traced(decide, others, a, b, first, given) && Traced(decide, others, b, c, second, later)
    requires (given ==> later)
    ensures Traced(decide, others, a, c, first + second, given)
  {
    hide Grows, Follows, Lawful, Stable, Chain, Noted;
    GrowsOn(a.commands, b.commands, c.commands);
    ChainOn(a, first, b, second, c);
    NotedOn(others, a, first, b, second);
    if given && Stable(decide) && Lawful(decide, first + second) {
      LawfulParts(decide, first, second);
      FollowsOn(decide, a, b, c);
    }
  }

  lemma TracedGiven(decide: Decider, others: iset<Other>, w: World, w': World, calls: seq<Call>, given: bool, wider: bool)
    requires Traced(decide, others, w, w', calls, given) && (wider ==> given)
    ensures Traced(decide, others, w, w', calls, wider)
  {
    hide Grows, Follows, Lawful, Stable, Chain, Noted;
  }

  lemma TransactedGrows(cancelled: bool, w: World, w': World, position: CommitPosition, events: seq<EventRecord>, ok: bool)
    requires Transacted(cancelled, w, w', position, events, ok)
    ensures Grows(w.commands, w'.commands)
  {
    hide AppendAll, S.StoreAccepts, PostCheck, Data, PartitionOf;
    forall p ensures Commands(w.commands, p) <= Commands(w'.commands, p) {
      CommandsStay(w.commands, w'.commands, p);
    }
  }

  /** The worker's own transaction. */
  lemma {:induction false} OwnTraced(decide: Decider, others: iset<Other>, w: World, w': World, cancelled: bool,
                                     p: Partition,
                                     records: seq<C.CommandRecord>, ok: bool)
    requires p.Normal() && records != []
    requires Transacted(cancelled, w, w', PositionOf(Submission(p, records)), DecidedEvents(decide, records), ok)
    ensures Traced(decide, others, w, w', [Own(w, cancelled, PositionOf(Submission(p, records)),
                                               DecidedEvents(decide, records))],
                   Held(w.commands, p, records[0].offset - 1, records))
  {
    hide Transacted, Follows, Grows, Stable, Held, Lawful;
    var position, events := PositionOf(Submission(p, records)), DecidedEvents(decide, records);
    TransactedGrows(cancelled, w, w', position, events, ok);
    GrowsSame(w.commands);
    ChainOne(Own(w, cancelled, position, events), w');
    if Stable(decide) && Held(w.commands, p, records[0].offset - 1, records) {
      TransactionFollows(decide, w, w', cancelled, p, records[0].offset - 1, records, ok);
    }
  }

  lemma MovedGrows(w: World, w': World, other: Other)
    requires C.Valid(w.commands) && Moved(w, w', other)
    ensures Grows(w.commands, w'.commands)
  {
    hide C.Valid, C.AppendCommand, Transacted, PartitionOf, Data;
    match other {
      case Enqueue(now, partition, record) =>
        if C.AppendCommand(w.commands, now, partition, record).Ok? {
          C.AppendCommandValid(w.commands, now, partition, record);
          forall p ensures Commands(w.commands, p) <= Commands(w'.commands, p) {
            DataPrefix(PartitionOf(w.commands.stream, p), PartitionOf(w'.commands.stream, p));
          }
        }
      case Transact(position, events) =>
        var ok :| Transacted(false, w, w', position, events, ok);
        TransactedGrows(false, w, w', position, events, ok);
      case Move(partition, offset) =>
    }
  }

  lemma MovedTraced(decide: Decider, others: iset<Other>, w: World, w': World, other: Other)
    requires C.Valid(w.commands) && Moved(w, w', other) && other in others
    ensures Traced(decide, others, w, w', [Foreign(w, other)], true)
  {
    hide C.Valid, Moved, Follows, Grows, Stable, LawfulMove;
    var call := Foreign(w, other);
    MovedGrows(w, w', other);
    GrowsSame(w.commands);
    ChainOne(call, w');
    if Stable(decide) && Lawful(decide, [call]) {
      assert LawfulMove(decide, [call][0].world, [call][0].other);
      MovedFollows(decide, w, w', other);
    }
  }

  lemma MovedFollows(decide: Decider, w: World, w': World, other: Other)
    requires Stable(decide) && C.Valid(w.commands) && Moved(w, w', other) && LawfulMove(decide, w, other)
    ensures Follows(decide, w, w')
  {
    hide C.Valid, C.AppendCommand, Transacted, Follows, Stable, Held;
    match other {
      case Enqueue(now, partition, record) => EnqueueFollows(decide, w, w', now, partition, record);
      case Transact(position, events) =>
        var ok :| Transacted(false, w, w', position, events, ok);
        var sub :| SubmissionSound(w.commands, sub) && position == PositionOf(sub) && events == DecidedEvents(decide, sub.records);
        assert sub == Submission(sub.partition, sub.records);
        TransactionFollows(decide, w, w', false, sub.partition, sub.records[0].offset - 1, sub.records, ok);
      case Move(partition, offset) =>
        FollowsOf(decide, w, w');
    }
  }

  lemma FollowsOf(decide: Decider, w: World, w': World)
    requires w'.commands == w.commands && w'.events == w.events
    ensures Follows(decide, w, w')
  {
    hide Run;
    forall states | Ends(decide, states, w) ensures exists states' :: Continues(decide, states, states', w') {
      assert Continues(decide, states, states, w');
    }
  }

  // ---- Along a drain ---------------------------------------------------------------------------

  /** What the worker was handed: consecutive records of the log, right after an offset
      up to which everything is committed. */
  ghost predicate Handed(job: Job) {
    job.p.Normal() && job.Sliced() && Held(job.start.commands, job.p, job.committed, job.records)
  }

  /** Once everything before them is committed, records in the middle are held as well. */
  lemma HandedPart(job: Job, log: C.CommandLog, i: nat, j: nat)
    requires Handed(job) && Grows(job.start.commands, log) && i < j <= |job.records|
    requires job.committed + i <= log.Committed(job.p)
    ensures Held(log, job.p, job.records[i..j][0].offset - 1, job.records[i..j])
  {
    hide Commands, Grows;
    HeldGrows(job.start.commands, log, job.p, job.committed, job.records);
    assert job.records[i..j][0] == job.records[i] && job.records[i].offset == job.committed + i + 1;
    HeldMiddle(log, job.p, job.committed, job.records, i, j);
  }

  lemma HeldMiddle(log: C.CommandLog, p: Partition, last: int, records: seq<C.CommandRecord>, i: nat, j: nat)
    requires Held(log, p, last, records) && i <= j <= |records| && last + i <= log.Committed(p)
    ensures Held(log, p, last + i, records[i..j])
  {
    hide Commands;
    SliceOfSlice(Commands(log, p), records, last, i, j);
  }

  lemma SliceOfSlice<T>(all: seq<T>, part: seq<T>, from: nat, i: nat, j: nat)
    requires from + |part| <= |all| && part == all[from..from + |part|] && i <= j <= |part|
    ensures part[i..j] == all[from + i..from + j]
  {
    forall k | 0 <= k < j - i ensures part[i..j][k] == all[from + i..from + j][k] {
      assert part[i..j][k] == part[i + k] == all[from + (i + k)];
    }
  }

  /** The next record of a drain under way. */
  lemma TracedRecord(job: Job, others: iset<Other>, w: World, k: nat, result: Drained, calls: seq<Call>)
    requires Underway(job, w, k, result, Sent(calls)) && k < |job.records|
    requires Traced(job.b.decide, others, Bare(job.start), Bare(w), calls, Handed(job))
    ensures Handed(job) ==> Held(w.commands, job.p, job.records[k].offset - 1, [job.records[k]])
  {
    hide Held, Grows, Follows, Lawful, Progress, Chain, Noted, Sent;
    if Handed(job) {
      HandedPart(job, w.commands, k, k + 1);
      assert job.records[k..k + 1] == [job.records[k]];
    }
  }

  /** The gathered records of a batch. */
  lemma TracedGathered(job: Job, k: nat, pending: seq<C.CommandRecord>, last: int)
    requires Gathered(job, k, pending, last) && job.committed <= job.start.commands.Committed(job.p)
    ensures Handed(job) ==> pending == [] || Held(job.start.commands, job.p, pending[0].offset - 1, pending)
  {
    hide Held, Grows;
    if Handed(job) && pending != [] {
      GrowsSame(job.start.commands);
      HandedPart(job, job.start.commands, 0, k);
      assert job.records[0..k] == pending;
    }
  }

  lemma HeldTraced(decide: Decider, others: iset<Other>, w: World, w': World, calls: seq<Call>, given: bool,
                   p: Partition, last: int, records: seq<C.CommandRecord>)
    requires Traced(decide, others, w, w', calls, given)
    ensures Held(w.commands, p, last, records) ==> Held(w'.commands, p, last, records)
  {
    hide Held, Grows, Follows, Lawful, Chain, Noted;
    if Held(w.commands, p, last, records) {
      HeldGrows(w.commands, w'.commands, p, last, records);
    }
  }

  /** The drain of a fetch: from a reachable state the fetched records are held, and a
      state that no run reaches is followed by anything. */
  lemma FetchTraced(job: Job, others: iset<Other>, w': World, limit: int, calls: seq<Call>)
    requires job.p.Normal() && C.Valid(job.start.commands) && 0 <= job.committed <= job.start.commands.Committed(job.p)
    requires job.records == Data(Limit(After(PartitionOf(job.start.commands.stream, job.p), job.committed), limit))
    requires job.Sliced()
    requires Traced(job.b.decide, others, Bare(job.start), w', calls, Handed(job))
    ensures Traced(job.b.decide, others, Bare(job.start), w', calls, true)
  {
    hide Run, Stable, Lawful, Grows, Held, C.Valid, Slice, Data, Limit, After, PartitionOf, Chain, Noted;
    var decide, w := job.b.decide, Bare(job.start);
    if Stable(decide) && Lawful(decide, calls) {
      forall states | Ends(decide, states, w) ensures exists states' :: Continues(decide, states, states', w') {
        RunKeeps(decide, states, |states| - 1);
        CommittedInTail(decide, states[|states| - 1], job.p);
        FetchHolds(w.commands, job.p, job.committed, limit);
        assert Follows(decide, w, w');
      }
    }
  }

  /** A committed offset at or past a record that stopped the drain was there before, or
      a foreign call that was given put it there. */
  ghost predicate Stopped(job: Job, others: iset<Other>, w: World) {
    forall i :: 0 <= i < |job.records| && job.StopsAt(i) ==> StoppedAt(job, others, w, i)
  }

  ghost predicate StoppedAt(job: Job, others: iset<Other>, w: World, i: nat)
    requires i < |job.records|
  {
    var offset := w.commands.Committed(job.p);
    || offset < job.records[i].offset || offset == job.start.commands.Committed(job.p)
    || exists other :: other in others && CommitsAt(other, job.p, offset)
  }

  lemma TracedStops(job: Job, others: iset<Other>, w: World, calls: seq<Call>, given: bool)
    requires Traced(job.b.decide, others, Bare(job.start), Bare(w), calls, given) && NoneAtOrPast(job, Sent(calls))
    ensures Stopped(job, others, w)
  {
    hide Grows, Follows, Lawful, Chain, Sent, CommitsAt;
    var offset := w.commands.Committed(job.p);
    CommitExplained(Bare(job.start), calls, Bare(w), job.p);
    forall i | 0 <= i < |job.records| && job.StopsAt(i) ensures StoppedAt(job, others, w, i) {
      if offset in Sent(calls) {
        var j :| 0 <= j < |Sent(calls)| && Sent(calls)[j] == offset;
      } else if j :| 0 <= j < |calls| && calls[j].Foreign? && CommitsAt(calls[j].other, job.p, offset) {
        assert calls[j].other in others;
      }
    }
  }

  // ---- From lawful inputs to a run ------------------------------------------------------------------

  /** Foreign calls that are lawful at the start are lawful whenever they land. */
  lemma InputsLawful(decide: Decider, others: iset<Other>, w: World, w': World, calls: seq<Call>, given: bool)
    requires Traced(decide, others, w, w', calls, given) && LawfulAt(decide, w, others)
    ensures Lawful(decide, calls)
  {
    hide Grows, Follows, LawfulMove, Chain;
    forall i | 0 <= i < |calls| && calls[i].Foreign? ensures LawfulMove(decide, calls[i].world, calls[i].other) {
      LawfulStays(decide, w, calls[i].world, calls[i].other);
    }
  }

  /** Whatever is traced continues every run that reached its start, so exactly once in
      order holds after it as well. */
  lemma DrainAmongOthers(decide: Decider, others: iset<Other>, states: seq<State>, w: World, w': World,
                         calls: seq<Call>)
    returns (states': seq<State>)
    requires Stable(decide) && Ends(decide, states, w)
    requires Traced(decide, others, w, w', calls, true) && Lawful(decide, calls)
    ensures Continues(decide, states, states', w')
    ensures forall p ::
              && 0 <= w'.commands.Committed(p) <= w'.commands.Tail(p)
              && Origin(w'.events.stream, p) == DecidedEvents(decide, Commands(w'.commands, p)[..w'.commands.Committed(p)])
  {
    hide Stable, Run, Lawful, Grows, Chain, Noted;
    states' :| Continues(decide, states, states', w');
    forall p
      ensures 0 <= w'.commands.Committed(p) <= w'.commands.Tail(p)
      ensures Origin(w'.events.stream, p) == DecidedEvents(decide, Commands(w'.commands, p)[..w'.commands.Committed(p)])
    {
      ExactlyOnceInOrder(decide, states', |states'| - 1, p);
    }
  }
}
