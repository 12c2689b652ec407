/** What a drain of one partition achieves, and the accounting every call made by
    a worker keeps. */
module DrainSpec {
  import opened LogModel
  import opened BrokerEventLog
  import opened CommandEventTransaction
  import opened Decisions
  import opened Delivery
  import opened PostCommitCheck
  import opened DrainModel
  import opened ExactlyOnce
  import C = BrokerCommandLog
  import S = TransactionStore

  /** The result record of a drain. */
  datatype Drained = Drained(started: int, last: int, processed: int, applied: int, terminal: int,
                             commitFailures: int, retryable: bool)

  datatype Finalized = Finalized(applied: int, terminal: int, committed: bool, retryable: bool, commitFailures: int)

  const Nothing := Finalized(0, 0, false, false, 0)
  const CommitFailed := Finalized(0, 0, false, false, 1)
  const AskedToRetry := Finalized(0, 0, false, true, 0)

  function CountOf(b: Behaviour, r: C.CommandRecord): Finalized {
    if b.decide(r).Terminal? then Finalized(0, 1, true, false, 0) else Finalized(1, 0, true, false, 0)
  }

  function Applieds(b: Behaviour, records: seq<C.CommandRecord>): (n: nat)
    ensures n <= |records|
  {
    if records == [] then 0
    else Applieds(b, records[..|records| - 1]) + if b.decide(records[|records| - 1]).Terminal? then 0 else 1
  }

  function CountAll(b: Behaviour, records: seq<C.CommandRecord>): Finalized {
    Finalized(Applieds(b, records), |records| - Applieds(b, records), true, false, 0)
  }

  /** The first record whose execution asks for a retry. */
  function Stop(b: Behaviour, records: seq<C.CommandRecord>): (n: nat)
    ensures n <= |records| && (n < |records| ==> b.retries(records[n]))
    ensures forall i :: 0 <= i < n ==> !b.retries(records[i])
  {
    if records == [] || b.retries(records[0]) then 0 else 1 + Stop(b, records[1..])
  }

  datatype Outcome = Outcome(world: World, result: Drained)

  /** The whole drain: finalize the commands before the first retryable one. */
  function DrainOf(b: Behaviour, w: World, committed: int, records: seq<C.CommandRecord>): Result<Outcome> {
    var n := Stop(b, records);
    var r := FinalizeEach(b, w, records[..n]);
    if r.Err? then Err(r.error)
    else
      Ok(Outcome(if n < |records| then MarkRetry(r.value, records[n]) else r.value,
                 Reported(b, committed, records[..n]).(retryable := n < |records|)))
  }

  function MarkRetry(w: World, r: C.CommandRecord): World {
    w.(receipts := w.receipts[SlotOf(r) := Retrying])
  }

  function Reported(b: Behaviour, committed: int, done: seq<C.CommandRecord>): Drained {
    Drained(committed, committed + |done|, |done|, Applieds(b, done), |done| - Applieds(b, done), 0, false)
  }

  // ---- What one finalization keeps -----------------------------------------------

  ghost predicate NoEarlier(before: C.CommandLog, after: C.CommandLog) {
    forall p :: before.Committed(p) <= after.Committed(p)
  }

  /** Counters say `committed` for n commands exactly when the offset is durable. */
  ghost predicate Accounted(before: World, after: World, p: Partition, offset: int, n: int, f: Finalized) {
    && NoEarlier(before.commands, after.commands)
    && f.applied + f.terminal == (if f.committed then n else 0)
    && (f.committed ==> offset <= after.commands.Committed(p) && !f.retryable)
  }

  ghost predicate CleanOne(b: Behaviour, before: World, after: World, r: C.CommandRecord, f: Finalized) {
    if b.retries(r) then f == AskedToRetry && after == MarkRetry(before, r)
    else f == CountOf(b, r) && FinalizeOne(b, before, r) == Ok(after)
  }

  ghost predicate CleanAll(b: Behaviour, before: World, after: World, records: seq<C.CommandRecord>, f: Finalized) {
    f == CountAll(b, records) && records != [] && FinalizeAll(b, before, records) == Ok(after)
  }

  // ---- Why a calm drain meets no error ---------------------------------------------

  function PositionFor(r: C.CommandRecord): CommitPosition {
    CommitPosition(r.partition, r.offset, r.source)
  }

  /** The store takes the transaction and its messages pass the check. */
  ghost predicate Passes(w: World, position: CommitPosition, events: seq<EventRecord>) {
    && S.StoreAccepts(w.commands, w.events, position, events)
    && AppendAll(w.events, S.Requests(events)).Ok?
    && PostCheck(false, S.Requests(events), AppendAll(w.events, S.Requests(events)).value.messages)
  }

  /** What one call of the store does to the logs, and what it answers. */
  ghost predicate Transacted(cancelled: bool, w: World, w': World, position: CommitPosition, events: seq<EventRecord>, ok: bool) {
    && w'.receipts == w.receipts
    && if !cancelled && S.StoreAccepts(w.commands, w.events, position, events) then
         && var b := AppendAll(w.events, S.Requests(events));
         && b.Ok? && w'.events == b.value.log
         && w'.commands == w.commands.(committed := C.Commit(w.commands.committed, position.partition, position.offset))
         && (ok <==> PostCheck(false, S.Requests(events), b.value.messages))
       else !ok && w'.commands == w.commands && w'.events == w.events
  }

  ghost predicate Faultless(b: Behaviour) {
    forall r :: !b.deciderFails(r) && !b.receiptFails(r)
  }

  /** A state of the write path as every run reaches it, and records fetched there. */
  ghost predicate Ready(b: Behaviour, w: World, p: Partition, records: seq<C.CommandRecord>) {
    && Stable(b.decide) && C.Valid(w.commands) && Valid(w.events) && p.Normal()
    && Settled(b.decide, w.commands, w.events, p)
    && w.commands.Committed(p) + |records| <= w.commands.Tail(p)
    && records == Commands(w.commands, p)[w.commands.Committed(p)..w.commands.Committed(p) + |records|]
  }

  lemma ReadySlice(b: Behaviour, w: World, p: Partition, records: seq<C.CommandRecord>)
    requires Ready(b, w, p, records)
    ensures Slice(records, p, w.commands.Committed(p))
    ensures forall k :: 0 <= k <= |records| ==> Ready(b, w, p, records[..k])
  {
    hide C.Valid, Valid, Stable, Commands, InStep, Done;
    AllPlaced(w.commands, p);
    var c := w.commands.Committed(p);
    assert forall i :: 0 <= i < |records| ==> records[i] == Commands(w.commands, p)[c + i];
  }

  /** Finalizing part of the records leaves a state where the rest is ready. */
  lemma ReadyAfter(b: Behaviour, w: World, p: Partition, records: seq<C.CommandRecord>, i: nat)
    requires Ready(b, w, p, records) && i <= |records|
    ensures
      var r := InOrder(b, w, records[..i]);
      r.Ok? && Ready(b, r.value, p, records[i..])
  {
    hide C.Valid, Valid, Stable, Commands, AppendAll, S.Requests, S.WellFormed, DecidedEvents, InStep, InOrder,
         CommitLast, Slice, Done, Submitted;
    ReadySlice(b, w, p, records);
    var later := records[..i];
    ReadySubmits(b, w, p, later);
    SubmissionEffect(b.decide, w.events, p, Done(w.commands, p), w.commands.Committed(p), [], later);
    assert [] + later == later;
    InOrderLogs(b, w, later);
    var w' := InOrder(b, w, later).value;
    CommitsFurther(w.commands, p, records, i);
    DoneMore(w, w', p, records, i);
    assert Settled(b.decide, w'.commands, w'.events, p);
    ReadyMoves(b, w, w', p, records, i);
  }

  lemma InOrderLogs(b: Behaviour, w: World, records: seq<C.CommandRecord>)
    requires AppendAll(w.events, S.Requests(DecidedEvents(b.decide, records))).Ok?
    ensures
      var r := InOrder(b, w, records);
      && r.Ok? && r.value.commands == CommitLast(w.commands, records)
      && r.value.events == AppendAll(w.events, S.Requests(DecidedEvents(b.decide, records))).value.log
  {
    hide AppendAll, S.Requests, DecidedEvents, CommitLast, Writes, WriteAll;
  }

  lemma DoneMore(w: World, w': World, p: Partition, records: seq<C.CommandRecord>, i: nat)
    requires 0 <= w.commands.Committed(p) <= w.commands.Tail(p)
    requires w.commands.Committed(p) + |records| <= w.commands.Tail(p)
    requires records == Commands(w.commands, p)[w.commands.Committed(p)..w.commands.Committed(p) + |records|]
    requires i <= |records|
    requires w'.commands.stream == w.commands.stream && w'.commands.Committed(p) == w.commands.Committed(p) + i
    ensures 0 <= w'.commands.Committed(p) <= w'.commands.Tail(p)
    ensures Done(w'.commands, p) == Done(w.commands, p) + records[..i]
  {
    hide Commands;
    CommandsStay(w.commands, w'.commands, p);
  }

  /** The rest of the records is ready once the first i are committed and settled. */
  lemma ReadyMoves(b: Behaviour, w: World, w': World, p: Partition, records: seq<C.CommandRecord>, i: nat)
    requires Ready(b, w, p, records) && i <= |records|
    requires C.Valid(w'.commands) && Valid(w'.events) && Settled(b.decide, w'.commands, w'.events, p)
    requires w'.commands.stream == w.commands.stream && w'.commands.Committed(p) == w.commands.Committed(p) + i
    ensures Ready(b, w', p, records[i..])
  {
    hide C.Valid, Valid, Stable, Commands, InStep;
    CommandsStay(w.commands, w'.commands, p);
  }

  lemma ReadySubmits(b: Behaviour, w: World, p: Partition, later: seq<C.CommandRecord>)
    requires Ready(b, w, p, later)
    ensures 0 <= w.commands.Committed(p) <= w.commands.Tail(p)
    ensures Submitted(p, Done(w.commands, p), w.commands.Committed(p), [], later)
    ensures S.WellFormed(DecidedEvents(b.decide, later))
    ensures S.Requests(DecidedEvents(b.decide, later)) == DecidedEvents(b.decide, later)
  {
    hide C.Valid, Valid, Stable, Commands, S.Requests, S.WellFormed, DecidedEvents, InStep;
    ReadySlice(b, w, p, later);
    var done, c := Done(w.commands, p), w.commands.Committed(p);
    DoneSlice(w.commands, p);
    assert Submitted(p, done, c, [], later);
    SubmissionWellFormed(b.decide, w.commands, p, done, c, [], later);
    assert [] + later == later;
    RequestsSame(DecidedEvents(b.decide, later));
  }

  lemma CommitsFurther(commands: C.CommandLog, p: Partition, records: seq<C.CommandRecord>, i: nat)
    requires C.Valid(commands) && p.Normal() && Slice(records, p, commands.Committed(p)) && i <= |records|
    ensures
      var after := CommitLast(commands, records[..i]);
      && C.Valid(after) && after.stream == commands.stream && after.Committed(p) == commands.Committed(p) + i
  {
  }

  /** Any run of consecutive ready records passes as one transaction. */
  lemma ReadyPasses(b: Behaviour, w: World, p: Partition, records: seq<C.CommandRecord>, n: nat)
    requires Ready(b, w, p, records) && 1 <= n <= |records|
    ensures Passes(w, PositionFor(records[n - 1]), DecidedEvents(b.decide, records[..n]))
  {
    hide C.Valid, Valid, Stable, Commands, AppendAll, S.Requests, DecidedEvents, InStep, RecordsAccepted, PostCheck,
         S.WellFormed;
    ReadySlice(b, w, p, records);
    var later := records[..n];
    ReadySubmits(b, w, p, later);
    assert [] + later == later;
    SubmissionAccepted(b.decide, w.events, p, Done(w.commands, p), w.commands.Committed(p), [], later);
    NativePostCheck(false, w.events, DecidedEvents(b.decide, later));
  }

  // ---- Environment of a drain -----------------------------------------------------

  /** Ownership as seen during a call: kept, lost, its refresh failed, or the
      worker's own context ended. */
  datatype Beat = Kept | Lost | Failed | Interrupted

  /** Steps of the rest of the system between two steps of this worker. */
  datatype Other =
    | Enqueue(now: int, partition: Partition, record: C.CommandRecord)
    | Transact(position: CommitPosition, events: seq<EventRecord>)
    | Move(partition: Partition, offset: int)

  /** Everything the worker does not decide, around one record or one flush. */
  datatype Tick = Tick(
    cancelled: bool, before: Beat, executing: Beat, after: Beat, others: seq<Other>,
    cancelledInFlight: bool, finalizing: Beat, recording: Option<Failure>)

  const Quiet := Tick(false, Kept, Kept, Kept, [], false, Kept, None)

  datatype Poll = Skip | Halt(error: Option<Failure>) | Go

  function BeatError(beat: Beat): Option<Failure> {
    match beat
    case Kept => None
    case Lost => None
    case Failed => Some(OwnershipFailure)
    case Interrupted => Some(Cancelled)
  }

  /** Offsets advance by one, unless the broker gives physical positions. */
  predicate Progresses(last: int, r: C.CommandRecord) {
    r.source.ValidFor(r.partition, r.offset) && (r.offset == last + 1 || r.source != C.NoSource)
  }

  /** Everything before finalization: context, skipping, progress, ownership, execution. */
  function PollRecord(tick: Tick, last: int, r: C.CommandRecord): Poll {
    if tick.cancelled then Halt(Some(Cancelled))
    else if r.offset <= last then Skip
    else if !Progresses(last, r) then Halt(Some(OffsetGap))
    else if tick.before != Kept then Halt(BeatError(tick.before))
    else if tick.executing != Kept then Halt(BeatError(tick.executing))
    else if tick.after != Kept then Halt(BeatError(tick.after))
    else Go
  }

  /** A record is executed only in a live context, with ownership kept before, during and
      after, and right after the last one unless the broker gives positions.  One at or
      below the last is passed over.  Losing ownership stops without an error, failing to
      refresh it or the end of the context with one, and so does a gap. */
  lemma PollMeans(tick: Tick, last: int, r: C.CommandRecord)
    ensures
      var poll := PollRecord(tick, last, r);
      && (poll.Go? ==> !tick.cancelled && r.offset > last && (r.source == C.NoSource ==> r.offset == last + 1)
                       && tick.before == Kept && tick.executing == Kept && tick.after == Kept)
      && (poll.Skip? <==> !tick.cancelled && r.offset <= last)
      && (tick.cancelled ==> poll == Halt(Some(Cancelled)))
      && (!tick.cancelled && r.offset > last + 1 && r.source == C.NoSource ==> poll == Halt(Some(OffsetGap)))
      && (!tick.cancelled && r.offset == last + 1 && r.source == C.NoSource && tick.before != Kept ==>
            poll == Halt(match tick.before case Failed => Some(OwnershipFailure) case Interrupted => Some(Cancelled) case _ => None))
      && (!Unfit(tick) && r.offset == last + 1 && r.source == C.NoSource ==> poll == Go)
  {
  }

  datatype Observed = Observed(finalized: Finalized, acquired: bool, error: Option<Failure>)

  /** What the worker learns of a finalization that ran under a heartbeat. */
  function Observe(beat: Beat, f: Finalized, error: Option<Failure>): Observed {
    match beat
    case Kept => Observed(f, true, error)
    case Lost => Observed(f, false, if error == Some(Cancelled) then None else error)
    case Failed => Observed(f, false, Some(OwnershipFailure))
    case Interrupted => Observed(Nothing, false, Some(Cancelled))
  }

  function Add(result: Drained, f: Finalized): Drained {
    result.(applied := result.applied + f.applied, terminal := result.terminal + f.terminal,
            commitFailures := result.commitFailures + f.commitFailures,
            retryable := result.retryable || f.retryable)
  }

  function Advance(result: Drained, offset: int, count: int): Drained {
    result.(last := offset, processed := result.processed + count)
  }

  datatype Step = Step(result: Drained, go: bool, error: Option<Failure>)

  /** Take over a finalization: count it, note the commit, advance. */
  function Settle(result: Drained, o: Observed, offset: int, count: int, recording: Option<Failure>): Step {
    var counted := Add(result, o.finalized);
    if o.finalized.committed && recording.Some? then
      Step(if recording == Some(CommitFailure) then counted.(commitFailures := counted.commitFailures + 1) else counted,
           false, recording)
    else
      var advanced := if o.finalized.committed then Advance(counted, offset, count) else counted;
      if o.error.Some? then Step(advanced, false, o.error)
      else if !o.acquired || o.finalized.retryable then Step(advanced, false, None)
      else if !o.finalized.committed then Step(advanced, false, Some(NotCommitted))
      else Step(advanced, true, None)
  }

  /** The counters of a result, at a point where nothing failed. */
  ghost predicate Balanced(w: World, p: Partition, result: Drained) {
    result.processed == result.applied + result.terminal && result.last <= w.commands.Committed(p)
  }

  /** The counters on any exit: at most n commands were committed but not counted
      as processed, and then there is an error. */
  ghost predicate Accountable(w: World, p: Partition, result: Drained, n: int, error: Option<Failure>) {
    && result.last <= w.commands.Committed(p)
    && result.processed <= result.applied + result.terminal <= result.processed + n
    && (error.None? ==> result.processed == result.applied + result.terminal)
  }

  lemma SettleAccounts(before: World, after: World, p: Partition, result: Drained, beat: Beat, f: Finalized,
                       error: Option<Failure>, offset: int, count: nat, recording: Option<Failure>)
    requires Balanced(before, p, result) && Accounted(before, after, p, offset, count, f)
    ensures
      var s := Settle(result, Observe(beat, f, error), offset, count, recording);
      Accountable(after, p, s.result, count, s.error) && (s.go ==> s.error.None?)
  {
  }

  /** What a finalization under the heartbeat leads to.  When the worker's own context
      ended it learns nothing; otherwise what was applied, refused or failed is counted, and
      what was committed is also processed, unless noting the commit fails.  An error is
      reported, except that of a call cancelled because ownership was lost.  The drain goes
      on only after a commit with ownership kept. */
  lemma SettleMeans(result: Drained, beat: Beat, f: Finalized, error: Option<Failure>, offset: int, n: int,
                    recording: Option<Failure>)
    ensures
      var s := Settle(result, Observe(beat, f, error), offset, n, recording);
      && (beat == Interrupted ==> s.result == result && s.error == Some(Cancelled) && !s.go)
      && (beat != Interrupted ==>
            && s.result.applied == result.applied + f.applied && s.result.terminal == result.terminal + f.terminal
            && s.result.started == result.started && s.result.retryable == (result.retryable || f.retryable)
            && (s.result.processed == result.processed + (if f.committed && recording.None? then n else 0))
            && (s.result.last == if f.committed && recording.None? then offset else result.last)
            && s.result.commitFailures == result.commitFailures + f.commitFailures
                                          + (if f.committed && recording == Some(CommitFailure) then 1 else 0)
            && (f.committed && recording.Some? ==> s.error == recording)
            && (!(f.committed && recording.Some?) ==>
                  && (beat == Failed ==> s.error == Some(OwnershipFailure))
                  && (beat == Lost ==> s.error == if error == Some(Cancelled) then None else error)
                  && (beat == Kept && error.Some? ==> s.error == error)
                  && (beat == Kept && error.None? && (f.committed || f.retryable) ==> s.error.None?))
            && (s.go <==> beat == Kept && error.None? && f.committed && !f.retryable && recording.None?))
  {
  }

  /** A quiet finalization is taken over in full. */
  function CleanStep(b: Behaviour, result: Drained, r: C.CommandRecord): Step {
    if b.retries(r) then Step(Add(result, AskedToRetry), false, None)
    else Step(Advance(Add(result, CountOf(b, r)), r.offset, 1), true, None)
  }

  lemma SettleOne(b: Behaviour, before: World, after: World, result: Drained, f: Finalized, error: Option<Failure>,
                  r: C.CommandRecord, beat: Beat, recording: Option<Failure>)
    requires error.None? ==> CleanOne(b, before, after, r, f)
    requires f.committed ==> !f.retryable
    ensures
      var s := Settle(result, Observe(beat, f, error), r.offset, 1, recording);
      && (s.go ==> !b.retries(r) && s.result.last == r.offset)
      && (beat.Kept? && recording.None? && error.None? ==> s == CleanStep(b, result, r))
      && (beat.Kept? && recording.None? && s.error.None? ==> error.None?)
  {
    hide FinalizeOne;
  }

  // ---- Following a quiet drain ------------------------------------------------------

  ghost predicate Progress(b: Behaviour, w0: World, w: World, committed: int, records: seq<C.CommandRecord>, k: nat,
                           result: Drained) {
    && k <= |records| && (forall j :: 0 <= j < k ==> !b.retries(records[j]))
    && FinalizeEach(b, w0, records[..k]) == Ok(w) && result == Reported(b, committed, records[..k])
  }

  function CleanCount(b: Behaviour, r: C.CommandRecord): Finalized {
    if b.retries(r) then AskedToRetry else CountOf(b, r)
  }

  lemma ProgressStart(b: Behaviour, w: World, committed: int, records: seq<C.CommandRecord>)
    ensures Progress(b, w, w, committed, records, 0, Drained(committed, committed, 0, 0, 0, 0, false))
  {
  }

  lemma ProgressNext(b: Behaviour, w0: World, w: World, w': World, committed: int, records: seq<C.CommandRecord>,
                     k: nat, result: Drained)
    requires Progress(b, w0, w, committed, records, k, result) && k < |records| && !b.retries(records[k])
    requires CleanOne(b, w, w', records[k], CountOf(b, records[k]))
    ensures Progress(b, w0, w', committed, records, k + 1, Advance(Add(result, CountOf(b, records[k])), committed + k + 1, 1))
  {
    hide FinalizeOne;
    assert records[..k + 1][..k] == records[..k];
  }

  lemma ProgressFlush(b: Behaviour, w0: World, w: World, p: Partition, committed: int, records: seq<C.CommandRecord>, k: nat)
    requires Slice(records, p, committed) && 1 <= k <= |records| && forall j :: 0 <= j < k ==> !b.retries(records[j])
    requires FinalizeAll(b, w0, records[..k]) == Ok(w)
    ensures Progress(b, w0, w, committed, records, k,
                     Advance(Add(Reported(b, committed, []), CountAll(b, records[..k])), committed + k, k))
  {
    hide FinalizeAll, FinalizeEach;
    BatchRefinesEach(b, w0, records[..k], p);
  }

  lemma ProgressStops(b: Behaviour, w0: World, w: World, committed: int, records: seq<C.CommandRecord>, k: nat,
                      result: Drained)
    requires Progress(b, w0, w, committed, records, k, result) && k < |records| && b.retries(records[k])
    ensures DrainOf(b, w0, committed, records) == Ok(Outcome(MarkRetry(w, records[k]), Add(result, AskedToRetry)))
  {
    hide FinalizeEach;
    assert Stop(b, records) == k;
  }

  lemma ProgressEnds(b: Behaviour, w0: World, w: World, committed: int, records: seq<C.CommandRecord>, result: Drained)
    requires Progress(b, w0, w, committed, records, |records|, result)
    ensures DrainOf(b, w0, committed, records) == Ok(Outcome(w, result))
  {
    hide FinalizeEach;
    assert Stop(b, records) == |records|;
  }

  /** From a ready state, whatever follows a quiet drain still passes. */
  lemma ProgressReady(b: Behaviour, w0: World, w: World, p: Partition, records: seq<C.CommandRecord>, k: nat,
                      result: Drained)
    requires Ready(b, w0, p, records)
    requires Progress(b, w0, w, w0.commands.Committed(p), records, k, result)
    ensures Ready(b, w, p, records[k..])
    ensures k < |records| ==> Passes(w, PositionFor(records[k]), EventsOf(b.decide(records[k])))
  {
    hide Ready, Passes, FinalizeEach, InOrder;
    ReadySlice(b, w0, p, records);
    EachIsInOrder(b, w0, records[..k], p);
    ReadyAfter(b, w0, p, records, k);
    if k < |records| {
      ReadyPasses(b, w, p, records[k..], 1);
      assert records[k..][..1] == [records[k]];
      DecidedSingle(b.decide, records[k]);
    }
  }

  // ---- Never at or past a record that stops the drain ----------------------------------

  /** Ownership or the context was lost before this record could be finalized. */
  predicate Unfit(tick: Tick) {
    tick.cancelled || tick.before != Kept || tick.executing != Kept || tick.after != Kept
  }

  predicate Stops(b: Behaviour, tick: Tick, r: C.CommandRecord) {
    b.retries(r) || Unfit(tick)
  }

  lemma GoIsFit(tick: Tick, last: int, r: C.CommandRecord)
    requires PollRecord(tick, last, r).Go?
    ensures !Unfit(tick)
  {
  }

  /** One drain: the code around the worker, what happens beside it, what it was handed,
      the state it started in, and whether nothing disturbs it. */
  datatype Job = Job(b: Behaviour, env: nat -> Tick, p: Partition, committed: int, records: seq<C.CommandRecord>,
                     start: World, quiet: bool)
  {
    /** It was handed consecutive records, as every fetch hands out. */
    ghost predicate Sliced() {
      Slice(records, p, committed)
    }

    predicate StopsAt(i: nat)
      requires i < |records|
    {
      Stops(b, env(i), records[i])
    }

    function Started(): Drained {
      Drained(committed, committed, 0, 0, 0, 0, false)
    }
  }

  /** No offset this worker sent is at or past a record that stopped it. */
  ghost predicate NoneAtOrPast(job: Job, sent: seq<int>) {
    forall i, j :: 0 <= i < |job.records| && job.StopsAt(i) && 0 <= j < |sent| ==> sent[j] < job.records[i].offset
  }

  ghost predicate Below(sent: seq<int>, bound: int) {
    forall j :: 0 <= j < |sent| ==> sent[j] <= bound
  }

  lemma BelowStops(job: Job, k: nat, sent: seq<int>)
    requires job.Sliced() && Below(sent, job.committed + k)
    requires k <= |job.records| && forall j :: 0 <= j < k ==> !job.StopsAt(j)
    ensures NoneAtOrPast(job, sent)
  {
  }

  // ---- A drain under way -----------------------------------------------------------

  /** After k records: the counters agree with what is durable, commits trail the
      records done, and a quiet drain is exactly where the simple form would be. */
  ghost predicate Underway(job: Job, w: World, k: nat, result: Drained, sent: seq<int>) {
    && Balanced(w, job.p, result) && k <= |job.records|
    && (job.Sliced() ==>
          && result.last == job.committed + k && (forall j :: 0 <= j < k ==> !job.StopsAt(j))
          && Below(sent, job.committed + k))
    && (job.quiet && job.Sliced() ==> Progress(job.b, job.start, w, job.committed, job.records, k, result))
  }

  /** On exit: the accounting for at most n uncounted commands, nothing sent at or past
      a record that was retryable or for which ownership or the context was lost, and
      a quiet drain without error did what the simple form does. */
  ghost predicate Finished(job: Job, w: World, n: int, result: Drained, error: Option<Failure>, sent: seq<int>) {
    && Accountable(w, job.p, result, n, error)
    && (job.Sliced() ==> NoneAtOrPast(job, sent))
    && (job.quiet && job.Sliced() && error.None? ==>
          DrainOf(job.b, job.start, job.committed, job.records) == Ok(Outcome(w, result)))
  }

  lemma Underway0(job: Job)
    requires job.committed <= job.start.commands.Committed(job.p)
    ensures Underway(job, job.start, 0, job.Started(), [])
  {
  }

  lemma UnderwayPoll(job: Job, w: World, k: nat, result: Drained, sent: seq<int>)
    requires Underway(job, w, k, result, sent) && k < |job.records| && (job.quiet ==> job.env(k) == Quiet)
    ensures
      var poll := PollRecord(job.env(k), result.last, job.records[k]);
      && (job.quiet && job.Sliced() ==> poll.Go?)
      && (poll.Skip? ==> Underway(job, w, k + 1, result, sent))
      && (poll.Halt? ==> Finished(job, w, 1, result, poll.error, sent))
  {
  }

  lemma UnderwayEnds(job: Job, w: World, result: Drained, sent: seq<int>)
    requires Underway(job, w, |job.records|, result, sent)
    ensures Finished(job, w, 1, result, None, sent)
  {
    hide DrainOf, FinalizeEach, Reported, Below, NoneAtOrPast;
    if job.Sliced() {
      BelowStops(job, |job.records|, sent);
      if job.quiet {
        ProgressEnds(job.b, job.start, w, job.committed, job.records, result);
      }
    }
  }

  /** What finalizing one record leaves. */
  ghost predicate Finalizes(b: Behaviour, w: World, w': World, p: Partition, r: C.CommandRecord, result: Drained, s: Step,
                            sent: seq<int>, quiet: bool)
  {
    && Accountable(w', p, s.result, 1, s.error)
    && (s.go ==> s.error.None? && !b.retries(r) && s.result.last == r.offset)
    && (sent == [] || (!b.retries(r) && sent == [r.offset]))
    && (quiet && s.error.None? ==> CleanOne(b, w, w', r, CleanCount(b, r)) && s == CleanStep(b, result, r))
  }

  lemma UnderwayStep(job: Job, w: World, w': World, k: nat, result: Drained, s: Step, sent: seq<int>, more: seq<int>)
    requires Underway(job, w, k, result, sent) && k < |job.records| && !Unfit(job.env(k))
    requires (job.quiet ==> job.env(k) == Quiet)
    requires Finalizes(job.b, w, w', job.p, job.records[k], result, s, more, job.env(k) == Quiet)
    ensures if s.go then Underway(job, w', k + 1, s.result, sent + more)
            else Finished(job, w', 1, s.result, s.error, sent + more)
  {
    hide Progress, DrainOf, CleanOne;
    if job.Sliced() {
      BelowStops(job, if job.b.retries(job.records[k]) then k else k + 1, sent + more);
      if job.quiet && s.error.None? {
        Follow(job.b, job.start, w, w', job.committed, job.records, k, result);
      }
    }
  }

  lemma Follow(b: Behaviour, w0: World, w: World, w': World, committed: int, records: seq<C.CommandRecord>, k: nat,
               result: Drained)
    requires Progress(b, w0, w, committed, records, k, result) && k < |records|
    requires records[k].offset == committed + k + 1
    requires CleanOne(b, w, w', records[k], CleanCount(b, records[k]))
    ensures
      var s := CleanStep(b, result, records[k]);
      if s.go then Progress(b, w0, w', committed, records, k + 1, s.result)
      else DrainOf(b, w0, committed, records) == Ok(Outcome(w', s.result))
  {
    hide Progress, DrainOf;
    if b.retries(records[k]) {
      ProgressStops(b, w0, w, committed, records, k, result);
    } else {
      ProgressNext(b, w0, w, w', committed, records, k, result);
    }
  }

  // ---- The batch drain ----------------------------------------------------------------

  /** Records gathered but not yet finalized, after looking at k of them. */
  ghost predicate Gathered(job: Job, k: nat, pending: seq<C.CommandRecord>, last: int) {
    && |pending| <= k <= |job.records|
    && (forall i :: 0 <= i < |pending| ==> pending[i].partition == job.p && pending[i] in job.records)
    && (job.Sliced() ==>
          pending == job.records[..k] && last == job.committed + k && forall j :: 0 <= j < k ==> !job.StopsAt(j))
  }

  /** What flushing a batch leaves. */
  ghost predicate Flushes(b: Behaviour, w: World, w': World, p: Partition, pending: seq<C.CommandRecord>,
                          result: Drained,
                          s: Step, sent: seq<int>, quiet: bool)
  {
    && Accountable(w', p, s.result, |pending|, s.error)
    && (s.go ==> s.error.None? && s.result.last == (if pending == [] then result.last else pending[|pending| - 1].offset))
    && (sent == [] || (pending != [] && sent == [pending[|pending| - 1].offset]))
    && (quiet && s.error.None? ==>
          if pending == [] then w' == w && s == Step(result, true, None)
          else CleanAll(b, w, w', pending, CountAll(b, pending)) && s == CleanFlush(b, result, pending))
  }

  function CleanFlush(b: Behaviour, result: Drained, pending: seq<C.CommandRecord>): Step
    requires pending != []
  {
    Step(Advance(Add(result, CountAll(b, pending)), pending[|pending| - 1].offset, |pending|), true, None)
  }

  lemma SettleAll(b: Behaviour, before: World, after: World, result: Drained, f: Finalized, error: Option<Failure>,
                  pending: seq<C.CommandRecord>, beat: Beat, recording: Option<Failure>)
    requires pending != [] && (error.None? ==> CleanAll(b, before, after, pending, f))
    ensures
      var s := Settle(result, Observe(beat, f, error), pending[|pending| - 1].offset, |pending|, recording);
      && (s.go ==> s.result.last == pending[|pending| - 1].offset)
      && (beat.Kept? && recording.None? && error.None? ==> s == CleanFlush(b, result, pending))
      && (beat.Kept? && recording.None? && s.error.None? ==> error.None?)
  {
    hide FinalizeAll;
  }

  lemma Gather(job: Job, k: nat, pending: seq<C.CommandRecord>, last: int)
    requires Gathered(job, k, pending, last) && k < |job.records| && job.records[k].partition == job.p
    ensures
      var r := job.records[k];
      var poll := PollRecord(job.env(k), last, r);
      && (job.env(k) == Quiet && job.Sliced() ==> poll.Go?)
      && (poll.Skip? ==> Gathered(job, k + 1, pending, last))
      && (poll.Go? && !job.b.retries(r) ==> Gathered(job, k + 1, pending + [r], r.offset))
  {
  }

  /** Nothing was committed yet, so stopping here is accounted for. */
  lemma GatheredHalts(job: Job, k: nat, pending: seq<C.CommandRecord>, last: int)
    requires Gathered(job, k, pending, last) && k < |job.records| && job.records[k].partition == job.p
    requires PollRecord(job.env(k), last, job.records[k]).Halt? && (job.quiet ==> job.env(k) == Quiet)
    requires job.committed <= job.start.commands.Committed(job.p)
    ensures Finished(job, job.start, |job.records|, job.Started(), PollRecord(job.env(k), last, job.records[k]).error, [])
    ensures job.quiet ==> !job.Sliced()
  {
  }

  /** After a flush a batch drain is where the per-record drain would be. */
  lemma FlushUnderway(job: Job, w: World, k: nat, pending: seq<C.CommandRecord>, last: int, s: Step, sent: seq<int>, calm: bool)
    requires Gathered(job, k, pending, last) && (job.quiet ==> calm)
    requires Flushes(job.b, job.start, w, job.p, pending, job.Started(), s, sent, calm)
    ensures if s.go then Underway(job, w, k, s.result, sent)
            else Finished(job, w, |job.records|, s.result, s.error, sent)
  {
    hide Progress, DrainOf, FinalizeAll;
    if job.Sliced() {
      BelowStops(job, k, sent);
      ProgressStart(job.b, job.start, job.committed, job.records);
      if job.quiet && s.error.None? && pending != [] {
        assert forall j :: 0 <= j < k ==> !job.StopsAt(j) ==> !job.b.retries(job.records[j]);
        ProgressFlush(job.b, job.start, w, job.p, job.committed, job.records, k);
      }
    }
  }

  lemma FinishedWider(job: Job, w: World, result: Drained, error: Option<Failure>, sent: seq<int>)
    requires Finished(job, w, 1, result, error, sent) && (job.records != [] || error.None?)
    ensures Finished(job, w, |job.records|, result, error, sent)
  {
  }
}
