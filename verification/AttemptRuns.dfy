/** Runs of the write path in which every attempt at a command brings its own events,
    because what a decision reads may have changed since the last attempt.  Workers are
    left out: any records that some worker could hold may be delivered at any time, any
    number of times, with any numbered events. */
module AttemptRuns {
  import opened LogModel
  import opened BrokerEventLog
  import opened CommandEventTransaction
  import opened Decisions
  import opened NativeDecider
  import opened LateDelivery
  import C = BrokerCommandLog
  import X = ExactlyOnce

  /** One attempt: the command and what was decided for it this time. */
  datatype Attempt = Attempt(record: C.CommandRecord, events: seq<EventRecord>)

  /** `taken` remembers the attempts of every transaction that took effect. */
  datatype State = State(commands: C.CommandLog, events: EventLog, taken: seq<Attempt>)

  datatype Step =
    | Produce(now: int, partition: Partition, record: C.CommandRecord)
    | ForeignAppend(partition: Partition, event: EventRecord)
    | SeedTail(partition: Partition, offset: int)
    | Deliver(partition: Partition, last: int, attempts: seq<Attempt>)

  function RecordsOf(attempts: seq<Attempt>): (r: seq<C.CommandRecord>)
    ensures |r| == |attempts| && forall i :: 0 <= i < |r| ==> r[i] == attempts[i].record
  {
    seq(|attempts|, i requires 0 <= i < |attempts| => attempts[i].record)
  }

  function AllEvents(attempts: seq<Attempt>): seq<EventRecord> {
    if attempts == [] then [] else AllEvents(attempts[..|attempts| - 1]) + attempts[|attempts| - 1].events
  }

  /** Attempts that some worker can bring: consecutive commands of the log, from right
      after a committed offset or earlier, with events numbered from zero. */
  ghost predicate Offered(commands: C.CommandLog, p: Partition, last: int, attempts: seq<Attempt>) {
    && attempts != [] && p.Normal() && X.Held(commands, p, last, RecordsOf(attempts))
    && forall i :: 0 <= i < |attempts| ==> Numbered(attempts[i].record, attempts[i].events, 0)
  }

  ghost predicate Delivers(s: State, s': State, p: Partition, last: int, attempts: seq<Attempt>) {
    && Offered(s.commands, p, last, attempts)
    && if RecordsAccepted(s.events, AllEvents(attempts)) then
         && var b := AppendAll(s.events, AllEvents(attempts));
         && b.Ok?
         && s' == State(s.commands.(committed := C.Commit(s.commands.committed, p, last + |attempts|)), b.value.log,
                        s.taken + attempts)
       else s' == s
  }

  ghost predicate Next(s: State, s': State, step: Step) {
    match step
    case Produce(now, partition, record) =>
      var r := C.AppendCommand(s.commands, now, partition, record);
      r.Ok? && s' == s.(commands := r.value.log)
    case ForeignAppend(partition, event) =>
      var r := Append(s.events, partition, event);
      !event.id.Decided? && r.Ok? && s' == s.(events := r.value.log)
    case SeedTail(partition, offset) => s' == s.(events := Seed(s.events, partition, offset))
    case Deliver(partition, last, attempts) => Delivers(s, s', partition, last, attempts)
  }

  const Init := State(C.CommandLog([], map[]), EmptyLog, [])

  ghost predicate Run(states: seq<State>, steps: seq<Step>) {
    && |states| == |steps| + 1 && states[0] == Init
    && forall i :: 0 <= i < |steps| ==> Next(states[i], states[i + 1], steps[i])
  }

  // ---- The longest attempt -----------------------------------------------------------------------

  /** The longest of the attempts at this command, the first of equals. */
  function Longest(taken: seq<Attempt>, r: C.CommandRecord): seq<EventRecord> {
    if taken == [] then []
    else
      var best, last := Longest(taken[..|taken| - 1], r), taken[|taken| - 1];
      if last.record == r && |last.events| > |best| then last.events else best
  }

  /** Every attempt at it is where the longest one starts. */
  ghost predicate AllAgree(taken: seq<Attempt>, r: C.CommandRecord) {
    forall i :: 0 <= i < |taken| && taken[i].record == r ==> taken[i].events <= Longest(taken, r)
  }

  ghost predicate HeldAs(log: EventLog, taken: seq<Attempt>, r: C.CommandRecord) {
    Holds(log, r, Longest(taken, r)) && Numbered(r, Longest(taken, r), 0) && AllAgree(taken, r)
  }

  lemma LongestSnoc(taken: seq<Attempt>, a: Attempt, r: C.CommandRecord)
    ensures
      var best := Longest(taken, r);
      Longest(taken + [a], r) == if a.record == r && |a.events| > |best| then a.events else best
  {
    assert (taken + [a])[..|taken|] == taken;
  }

  /** It is one of them. */
  lemma {:induction false} LongestIsTaken(taken: seq<Attempt>, r: C.CommandRecord)
    ensures Longest(taken, r) == [] || exists i :: 0 <= i < |taken| && taken[i] == Attempt(r, Longest(taken, r))
  {
    if taken != [] {
      var n := |taken| - 1;
      LongestIsTaken(taken[..n], r);
      if i :| 0 <= i < n && taken[..n][i] == Attempt(r, Longest(taken[..n], r)) {
        assert taken[i] == taken[..n][i];
      }
      assert taken[n].record == r ==> taken[n] == Attempt(r, taken[n].events);
    }
  }

  // ---- One attempt taken ----------------------------------------------------------------------------

  /** What a transaction leaves of what was stored. */
  lemma StillAccepted(log: EventLog, log': EventLog, e: EventRecord)
    requires Valid(log') && log.stream <= log'.stream && Stored(log, e.id) && RecordAccepted(log, e)
    ensures Stored(log', e.id) && RecordAccepted(log', e)
  {
    hide Valid, FindId;
    FindIdExtends(log, log', e.id);
  }

  /** The new messages of a transaction are requested ones. */
  lemma HoldsMore(log: EventLog, records: seq<EventRecord>, r: C.CommandRecord, first: seq<EventRecord>,
                  all: seq<EventRecord>)
    requires Valid(log) && RecordsAccepted(log, records) && Holds(log, r, first) && |first| <= |all|
    requires forall k :: 0 <= k < |all| ==> all[k] in first || all[k] in records
    requires forall i :: 0 <= i < |records| && FromCommand(records[i].id, r) ==> DecidedBelow(records[i].id, |all|)
    ensures AppendAll(log, records).Ok? && Valid(AppendAll(log, records).value.log)
    ensures Holds(AppendAll(log, records).value.log, r, all)
  {
    hide Valid, FindId, RecordAccepted, AppendAll, FromCommand, Stored;
    RepeatAppends(log, records);
    AppendAllDescribes(log, records);
    var b := AppendAll(log, records).value;
    forall k | 0 <= k < |all| ensures Stored(b.log, all[k].id) && RecordAccepted(b.log, all[k]) {
      if all[k] in first {
        var j :| 0 <= j < |first| && first[j] == all[k];
        StillAccepted(log, b.log, first[j]);
      } else {
        var j :| 0 <= j < |records| && records[j] == all[k];
        RequestStored(log, records, j);
      }
    }
    forall i | 0 <= i < |b.log.stream| && FromCommand(b.log.stream[i].data.id, r)
      ensures DecidedBelow(b.log.stream[i].data.id, |all|)
    {
      OldOrRequested(log, records, b, i);
      if i < |log.stream| {
        OrdinalBelow(log, r, first, i);
      } else {
        var j :| 0 <= j < |records| && records[j].id == b.log.stream[i].data.id;
        assert FromCommand(records[j].id, r);
      }
    }
    HoldsIntro(b.log, r, all);
  }

  ghost predicate DecidedBelow(id: EventId, n: int) {
    id.Decided? && 0 <= id.ordinal < n
  }

  lemma FromIsDecided(id: EventId, r: C.CommandRecord)
    requires FromCommand(id, r)
    ensures id.Decided? && id.partition == r.partition && id.offset == r.offset
  {
  }

  lemma FromOneOnly(id: EventId, a: C.CommandRecord, b: C.CommandRecord)
    requires FromCommand(id, a) && (a.partition != b.partition || a.offset != b.offset)
    ensures !FromCommand(id, b)
  {
  }

  lemma OrdinalBelow(log: EventLog, r: C.CommandRecord, first: seq<EventRecord>, i: nat)
    requires Holds(log, r, first) && i < |log.stream| && FromCommand(log.stream[i].data.id, r)
    ensures DecidedBelow(log.stream[i].data.id, |first|)
  {
  }

  lemma HoldsIntro(log: EventLog, r: C.CommandRecord, all: seq<EventRecord>)
    requires forall k :: 0 <= k < |all| ==> Stored(log, all[k].id) && RecordAccepted(log, all[k])
    requires forall i :: 0 <= i < |log.stream| && FromCommand(log.stream[i].data.id, r) ==>
              DecidedBelow(log.stream[i].data.id, |all|)
    ensures Holds(log, r, all)
  {
    hide Stored, RecordAccepted;
  }

  lemma RequestStored(log: EventLog, records: seq<EventRecord>, j: nat)
    requires Valid(log) && RecordsAccepted(log, records) && j < |records|
    ensures AppendAll(log, records).Ok?
    ensures Stored(AppendAll(log, records).value.log, records[j].id)
    ensures RecordAccepted(AppendAll(log, records).value.log, records[j])
  {
    hide Valid, FindId, RecordAccepted, AppendAll;
    RepeatAppends(log, records);
    AppendAllDescribes(log, records);
    var b := AppendAll(log, records).value;
    assert Answers(log, b.log, records[j], b.messages[j]);
  }

  lemma OldOrRequested(log: EventLog, records: seq<EventRecord>, b: Batch, i: nat)
    requires Describes(log, records, b) && i < |b.log.stream|
    ensures if i < |log.stream| then b.log.stream[i] == log.stream[i]
            else exists j :: 0 <= j < |records| && records[j].id == b.log.stream[i].data.id
  {
    hide Valid, Answers;
    if i >= |log.stream| {
      assert Requested(records, b.log.stream[i].data.id);
    }
  }

  /** Taking an attempt leaves the longest of what was taken. */
  lemma TakeOne(log: EventLog, taken: seq<Attempt>, r: C.CommandRecord, events: seq<EventRecord>)
    requires Valid(log) && HeldAs(log, taken, r) && Numbered(r, events, 0) && RecordsAccepted(log, events)
    ensures AppendAll(log, events).Ok? && Valid(AppendAll(log, events).value.log)
    ensures HeldAs(AppendAll(log, events).value.log, taken + [Attempt(r, events)], r)
  {
    hide Valid, Numbered, RecordsAccepted, AppendAll, Holds, FromCommand;
    var best, more := Longest(taken, r), taken + [Attempt(r, events)];
    LateAccepted(log, r, best, events);
    LongestSnoc(taken, Attempt(r, events), r);
    var all := Longest(more, r);
    forall i | 0 <= i < |events| && FromCommand(events[i].id, r) ensures DecidedBelow(events[i].id, |all|) {
      NumberedAt(r, events, i);
    }
    HoldsMore(log, events, r, best, all);
    assert best <= all && events <= all by {
      AgreePrefix(best, events);
    }
    forall i | 0 <= i < |more| && more[i].record == r ensures more[i].events <= all {
      if i < |taken| {
        assert taken[i].events <= best;
      }
    }
  }

  lemma AgreePrefix(a: seq<EventRecord>, b: seq<EventRecord>)
    requires Agree(a, b)
    ensures if |b| > |a| then a <= b else b <= a
  {
  }

  /** It touches no other command. */
  lemma TakeOther(log: EventLog, taken: seq<Attempt>, a: Attempt, r: C.CommandRecord)
    requires Valid(log) && HeldAs(log, taken, r) && Numbered(a.record, a.events, 0) && RecordsAccepted(log, a.events)
    requires a.record.partition != r.partition || a.record.offset != r.offset
    ensures AppendAll(log, a.events).Ok? && HeldAs(AppendAll(log, a.events).value.log, taken + [a], r)
  {
    hide Valid, Numbered, RecordsAccepted, AppendAll, Holds, FromCommand;
    LongestSnoc(taken, a, r);
    var best := Longest(taken, r);
    forall i | 0 <= i < |a.events| ensures !FromCommand(a.events[i].id, r) {
      NumberedAt(a.record, a.events, i);
      FromOneOnly(a.events[i].id, a.record, r);
    }
    HoldsMore(log, a.events, r, best, best);
    forall i | 0 <= i < |taken + [a]| && (taken + [a])[i].record == r ensures (taken + [a])[i].events <= best {
      assert i < |taken| && taken[i].events <= best;
    }
  }

  // ---- A whole transaction ----------------------------------------------------------------------------

  /** No id of one is an id of the other. */
  ghost predicate IdsApart(a: seq<EventRecord>, b: seq<EventRecord>) {
    forall i, j :: 0 <= i < |a| && 0 <= j < |b| ==> a[i].id != b[j].id
  }

  lemma AcceptedBoth(log: EventLog, a: seq<EventRecord>, b: seq<EventRecord>)
    requires IdsApart(a, b)
    ensures RecordsAccepted(log, a + b) <==> RecordsAccepted(log, a) && RecordsAccepted(log, b)
  {
    hide RecordAccepted, Stored;
    var all := a + b;
    assert forall i :: 0 <= i < |a| ==> all[i] == a[i];
    assert forall j :: 0 <= j < |b| ==> all[|a| + j] == b[j];
    if RecordsAccepted(log, all) {
      forall i, j | 0 <= i < j < |b| && b[i].id == b[j].id ensures Stored(log, b[i].id) {
        assert all[|a| + i].id == all[|a| + j].id;
      }
      forall i, j | 0 <= i < j < |a| && a[i].id == a[j].id ensures Stored(log, a[i].id) {
        assert all[i].id == all[j].id;
      }
    }
    if RecordsAccepted(log, a) && RecordsAccepted(log, b) {
      forall i, j | 0 <= i < j < |all| && all[i].id == all[j].id ensures Stored(log, all[i].id) {
        if i >= |a| {
          assert b[i - |a|].id == b[j - |a|].id;
        } else if j < |a| {
          assert a[i].id == a[j].id;
        } else {
          assert a[i].id != b[j - |a|].id;
        }
      }
    }
  }

  /** What follows is still accepted once the first part is stored. */
  lemma AcceptedLater(log: EventLog, a: seq<EventRecord>, b: seq<EventRecord>)
    requires Valid(log) && RecordsAccepted(log, a) && RecordsAccepted(log, b) && IdsApart(a, b)
    ensures AppendAll(log, a).Ok? && RecordsAccepted(AppendAll(log, a).value.log, b)
  {
    hide Valid, AppendAll, Answers, NewInOrder;
    AppendAllDescribes(log, a);
    var done := AppendAll(log, a).value;
    DescribesLog(log, a, done);
    forall j | 0 <= j < |b|
      ensures RecordAccepted(done.log, b[j]) && (Stored(log, b[j].id) ==> Stored(done.log, b[j].id))
    {
      assert RecordAccepted(log, b[j]);
      if Stored(log, b[j].id) {
        StillAccepted(log, done.log, b[j]);
      } else {
        NotRequested(log, a, done, b[j].id);
      }
    }
  }

  lemma NotRequested(log: EventLog, records: seq<EventRecord>, b: Batch, id: EventId)
    requires Describes(log, records, b) && !Stored(log, id) && forall i :: 0 <= i < |records| ==> records[i].id != id
    ensures FindId(b.log.stream, id).None?
  {
    hide Valid, Answers;
    forall i | 0 <= i < |b.log.stream| ensures b.log.stream[i].data.id != id {
      OldOrRequested(log, records, b, i);
    }
  }

  /** Attempts at consecutive commands of p. */
  ghost predicate InLine(attempts: seq<Attempt>, p: Partition, last: int) {
    forall i :: 0 <= i < |attempts| ==>
      && attempts[i].record.partition == p && attempts[i].record.offset == last + i + 1
      && Numbered(attempts[i].record, attempts[i].events, 0)
  }

  ghost predicate DecidedUpTo(events: seq<EventRecord>, p: Partition, last: int, bound: int) {
    forall k :: 0 <= k < |events| ==> DecidedFrom(events[k].id, p) && last < events[k].id.offset <= bound
  }

  lemma {:induction false} EventsInLine(attempts: seq<Attempt>, p: Partition, last: int)
    requires InLine(attempts, p, last)
    ensures DecidedUpTo(AllEvents(attempts), p, last, last + |attempts|)
  {
    hide Numbered, FromCommand;
    if attempts != [] {
      var n := |attempts| - 1;
      var a := attempts[n];
      EventsInLine(attempts[..n], p, last);
      forall k | 0 <= k < |a.events| ensures DecidedFrom(a.events[k].id, p) && a.events[k].id.offset == last + n + 1 {
        NumberedAt(a.record, a.events, k);
        FromIsDecided(a.events[k].id, a.record);
      }
    }
  }

  lemma LastApart(attempts: seq<Attempt>, p: Partition, last: int)
    requires InLine(attempts, p, last) && attempts != []
    ensures IdsApart(AllEvents(attempts[..|attempts| - 1]), attempts[|attempts| - 1].events)
  {
    hide Numbered, FromCommand;
    var n := |attempts| - 1;
    var a := attempts[n];
    EventsInLine(attempts[..n], p, last);
    forall i, j | 0 <= i < |AllEvents(attempts[..n])| && 0 <= j < |a.events|
      ensures AllEvents(attempts[..n])[i].id != a.events[j].id
    {
      NumberedAt(a.record, a.events, j);
      FromIsDecided(a.events[j].id, a.record);
    }
  }

  /** A transaction is accepted if and only if each of its attempts agrees with the longest
      one taken before. */
  lemma {:induction false} AcceptedExactly(log: EventLog, taken: seq<Attempt>, attempts: seq<Attempt>, p: Partition, last: int)
    requires InLine(attempts, p, last) && forall i :: 0 <= i < |attempts| ==> HeldAs(log, taken, attempts[i].record)
    ensures RecordsAccepted(log, AllEvents(attempts)) <==>
              forall i :: 0 <= i < |attempts| ==> Agree(Longest(taken, attempts[i].record), attempts[i].events)
  {
    hide Numbered, RecordsAccepted, Holds, Agree, AllAgree, Longest;
    if attempts == [] {
      NothingAccepted(log);
    } else {
      var n := |attempts| - 1;
      var a := attempts[n];
      assert HeldAs(log, taken, a.record);
      AcceptedExactly(log, taken, attempts[..n], p, last);
      LastApart(attempts, p, last);
      AcceptedBoth(log, AllEvents(attempts[..n]), a.events);
      LateAccepted(log, a.record, Longest(taken, a.record), a.events);
      assert forall i :: 0 <= i < n ==> attempts[..n][i] == attempts[i];
    }
  }

  lemma NothingAccepted(log: EventLog)
    ensures RecordsAccepted(log, [])
  {
  }

  /** Every command of the log is held as its longest attempt. */
  ghost predicate AllHeld(commands: C.CommandLog, log: EventLog, taken: seq<Attempt>) {
    forall p, i :: 0 <= i < |Commands(commands, p)| ==> HeldAs(log, taken, Commands(commands, p)[i])
  }

  /** Placed in the log at its own offset. */
  ghost predicate InLog(commands: C.CommandLog, r: C.CommandRecord) {
    1 <= r.offset <= commands.Tail(r.partition) && r == Commands(commands, r.partition)[r.offset - 1]
  }

  lemma {:induction false} BatchHolds(commands: C.CommandLog, log: EventLog, taken: seq<Attempt>,
                                      attempts: seq<Attempt>, p: Partition, last: int)
    requires C.Valid(commands) && Valid(log) && AllHeld(commands, log, taken) && InLine(attempts, p, last)
    requires forall i :: 0 <= i < |attempts| ==> InLog(commands, attempts[i].record)
    requires RecordsAccepted(log, AllEvents(attempts))
    ensures AppendAll(log, AllEvents(attempts)).Ok? && Valid(AppendAll(log, AllEvents(attempts)).value.log)
    ensures AllHeld(commands, AppendAll(log, AllEvents(attempts)).value.log, taken + attempts)
  {
    hide C.Valid, Valid, Numbered, RecordsAccepted, AppendAll, HeldAs, Commands;
    if attempts == [] {
      NothingAppended(log);
      assert taken + attempts == taken;
    } else {
      var n := |attempts| - 1;
      var init, a := attempts[..n], attempts[n];
      LastApart(attempts, p, last);
      AcceptedBoth(log, AllEvents(init), a.events);
      BatchHolds(commands, log, taken, init, p, last);
      var log1 := AppendAll(log, AllEvents(init)).value.log;
      AcceptedLater(log, AllEvents(init), a.events);
      AppendAllConcat(log, AllEvents(init), a.events);
      assert taken + attempts == (taken + init) + [a];
      OneMoreHolds(commands, log1, taken + init, a);
    }
  }

  lemma OneMoreHolds(commands: C.CommandLog, log: EventLog, taken: seq<Attempt>, a: Attempt)
    requires C.Valid(commands) && Valid(log) && AllHeld(commands, log, taken) && InLog(commands, a.record)
    requires Numbered(a.record, a.events, 0) && RecordsAccepted(log, a.events)
    ensures AppendAll(log, a.events).Ok? && Valid(AppendAll(log, a.events).value.log)
    ensures AllHeld(commands, AppendAll(log, a.events).value.log, taken + [a])
  {
    hide C.Valid, Valid, Numbered, RecordsAccepted, AppendAll, HeldAs, Commands;
    var p, o := a.record.partition, a.record.offset;
    assert HeldAs(log, taken, Commands(commands, p)[o - 1]);
    TakeOne(log, taken, a.record, a.events);
    assert Attempt(a.record, a.events) == a;
    var log' := AppendAll(log, a.events).value.log;
    forall q, k | 0 <= k < |Commands(commands, q)| ensures HeldAs(log', taken + [a], Commands(commands, q)[k]) {
      if q != p || k != o - 1 {
        CommandsPlaced(commands, q, k);
        TakeOther(log, taken, a, Commands(commands, q)[k]);
      }
    }
  }

  // ---- The invariant ----------------------------------------------------------------------------------

  ghost predicate TakenSound(s: State, a: Attempt) {
    InLog(s.commands, a.record) && a.record.offset <= s.commands.Committed(a.record.partition)
  }

  ghost predicate WasTaken(taken: seq<Attempt>, r: C.CommandRecord) {
    exists i :: 0 <= i < |taken| && taken[i].record == r
  }

  ghost predicate Inv(s: State) {
    && C.Valid(s.commands) && Valid(s.events)
    && (forall p :: 0 <= s.commands.Committed(p) <= s.commands.Tail(p))
    && (forall i :: 0 <= i < |s.events.stream| && s.events.stream[i].data.id.Decided? ==>
          s.events.stream[i].data.id.offset <= s.commands.Committed(s.events.stream[i].data.id.partition))
    && (forall i :: 0 <= i < |s.taken| ==> TakenSound(s, s.taken[i]))
    && AllHeld(s.commands, s.events, s.taken)
    && forall p, i :: 0 <= i < s.commands.Committed(p) && i < |Commands(s.commands, p)| ==>
        WasTaken(s.taken, Commands(s.commands, p)[i])
  }

  lemma OfferedInLine(commands: C.CommandLog, p: Partition, last: int, attempts: seq<Attempt>)
    requires C.Valid(commands) && Offered(commands, p, last, attempts)
    ensures InLine(attempts, p, last) && 0 <= last <= commands.Committed(p) && last + |attempts| <= commands.Tail(p)
    ensures forall i :: 0 <= i < |attempts| ==> InLog(commands, attempts[i].record)
    ensures forall i :: 0 <= i < |attempts| ==> attempts[i].record == Commands(commands, p)[last + i]
  {
    hide C.Valid, Commands, Numbered;
    forall i | 0 <= i < |attempts|
      ensures attempts[i].record == Commands(commands, p)[last + i]
      ensures attempts[i].record.partition == p && attempts[i].record.offset == last + i + 1
    {
      assert RecordsOf(attempts)[i] == Commands(commands, p)[last + i];
      CommandsPlaced(commands, p, last + i);
    }
  }

  lemma DeliverKeeps(s: State, s': State, p: Partition, last: int, attempts: seq<Attempt>)
    requires Inv(s) && Delivers(s, s', p, last, attempts)
    ensures Inv(s')
  {
    hide C.Valid, Valid, Commands, RecordsAccepted, AppendAll, HeldAs, Offered, InLine, AllHeld, InLog, TakenSound,
         WasTaken,
         AllEvents;
    OfferedInLine(s.commands, p, last, attempts);
    if RecordsAccepted(s.events, AllEvents(attempts)) {
      BatchHolds(s.commands, s.events, s.taken, attempts, p, last);
      OfferedNormal(s.commands, p, last, attempts);
      X.CommitKeeps(s.commands, p, last + |attempts|);
      CommitsTo(s.commands, p, last + |attempts|);
      IdsCovered(s, s', p, last, attempts);
      TakenKeeps(s, s', p, last, attempts);
      HeldStays(s.commands, s'.commands, s'.events, s'.taken);
    }
  }

  lemma OfferedNormal(commands: C.CommandLog, p: Partition, last: int, attempts: seq<Attempt>)
    requires Offered(commands, p, last, attempts)
    ensures p.Normal() && attempts != []
  {
  }

  lemma CommitsTo(log: C.CommandLog, p: Partition, offset: int)
    requires p.Normal() && offset <= log.Tail(p)
    ensures
      var log' := log.(committed := C.Commit(log.committed, p, offset));
      && log'.stream == log.stream && offset <= log'.Committed(p)
      && (log'.Committed(p) == offset || log'.Committed(p) == log.Committed(p))
      && forall q :: q != p ==> log'.Committed(q) == log.Committed(q)
  {
  }

  /** What is stored afterwards is of committed commands. */
  lemma IdsCovered(s: State, s': State, p: Partition, last: int, attempts: seq<Attempt>)
    requires Inv(s) && InLine(attempts, p, last) && RecordsAccepted(s.events, AllEvents(attempts))
    requires AppendAll(s.events, AllEvents(attempts)).Ok?
    requires s'.events == AppendAll(s.events, AllEvents(attempts)).value.log
    requires forall q :: s.commands.Committed(q) <= s'.commands.Committed(q)
    requires last + |attempts| <= s'.commands.Committed(p)
    ensures forall i :: 0 <= i < |s'.events.stream| && s'.events.stream[i].data.id.Decided? ==>
              s'.events.stream[i].data.id.offset <= s'.commands.Committed(s'.events.stream[i].data.id.partition)
  {
    hide C.Valid, Valid, Commands, RecordsAccepted, AppendAll, InLine, AllHeld, Describes;
    AppendAllDescribes(s.events, AllEvents(attempts));
    EventsInLine(attempts, p, last);
    var b := AppendAll(s.events, AllEvents(attempts)).value;
    forall i | 0 <= i < |s'.events.stream| && s'.events.stream[i].data.id.Decided?
      ensures s'.events.stream[i].data.id.offset <= s'.commands.Committed(s'.events.stream[i].data.id.partition)
    {
      OldOrRequested(s.events, AllEvents(attempts), b, i);
      if i < |s.events.stream| {
        var q := s.events.stream[i].data.id.partition;
        assert s.commands.Committed(q) <= s'.commands.Committed(q);
      }
    }
  }

  lemma TakenKeeps(s: State, s': State, p: Partition, last: int, attempts: seq<Attempt>)
    requires Inv(s) && s'.commands.stream == s.commands.stream && s'.taken == s.taken + attempts
    requires InLine(attempts, p, last) && 0 <= last <= s.commands.Committed(p)
    requires last + |attempts| <= s.commands.Tail(p)
    requires forall i :: 0 <= i < |attempts| ==> attempts[i].record == Commands(s.commands, p)[last + i]
    requires forall i :: 0 <= i < |attempts| ==> InLog(s.commands, attempts[i].record)
    requires last + |attempts| <= s'.commands.Committed(p)
    requires s'.commands.Committed(p) == last + |attempts| || s'.commands.Committed(p) == s.commands.Committed(p)
    requires forall q :: q != p ==> s'.commands.Committed(q) == s.commands.Committed(q)
    requires s.commands.Committed(p) <= s'.commands.Committed(p)
    ensures forall i :: 0 <= i < |s'.taken| ==> TakenSound(s', s'.taken[i])
    ensures forall q, i :: 0 <= i < s'.commands.Committed(q) && i < |Commands(s'.commands, q)| ==>
              WasTaken(s'.taken, Commands(s'.commands, q)[i])
  {
    hide C.Valid, Valid, Commands, AllHeld, Numbered;
    forall q ensures Commands(s'.commands, q) == Commands(s.commands, q) {
      X.CommandsStay(s.commands, s'.commands, q);
    }
    forall i | 0 <= i < |s'.taken| ensures TakenSound(s', s'.taken[i]) {
      if i < |s.taken| {
        assert TakenSound(s, s.taken[i]);
      } else {
        assert s'.taken[i] == attempts[i - |s.taken|];
      }
    }
    forall q, k | 0 <= k < s'.commands.Committed(q) && k < |Commands(s'.commands, q)|
      ensures WasTaken(s'.taken, Commands(s'.commands, q)[k])
    {
      if k < s.commands.Committed(q) {
        assert WasTaken(s.taken, Commands(s.commands, q)[k]);
        var i :| 0 <= i < |s.taken| && s.taken[i].record == Commands(s.commands, q)[k];
        assert s'.taken[i] == s.taken[i];
      } else {
        var i := |s.taken| + (k - last);
        assert s'.taken[i] == attempts[k - last];
      }
    }
  }

  lemma HeldStays(commands: C.CommandLog, commands': C.CommandLog, log: EventLog, taken: seq<Attempt>)
    requires AllHeld(commands, log, taken) && commands'.stream == commands.stream
    ensures AllHeld(commands', log, taken)
  {
    hide Commands, HeldAs;
    forall p, i | 0 <= i < |Commands(commands', p)| ensures HeldAs(log, taken, Commands(commands', p)[i]) {
      X.CommandsStay(commands, commands', p);
    }
  }

  // ---- The other steps --------------------------------------------------------------------------------

  /** A command that was just added has no event yet. */
  lemma NewIsHeld(s: State, r: C.CommandRecord)
    requires Inv(s) && s.commands.Committed(r.partition) < r.offset
    ensures HeldAs(s.events, s.taken, r)
  {
    hide C.Valid, Valid, Commands, AllHeld;
    forall i | 0 <= i < |s.taken| ensures s.taken[i].record != r {
      assert TakenSound(s, s.taken[i]);
    }
    LongestOfNone(s.taken, r);
  }

  lemma {:induction false} LongestOfNone(taken: seq<Attempt>, r: C.CommandRecord)
    requires forall i :: 0 <= i < |taken| ==> taken[i].record != r
    ensures Longest(taken, r) == []
  {
    if taken != [] {
      LongestOfNone(taken[..|taken| - 1], r);
    }
  }

  lemma ProduceKeeps(s: State, s': State, now: int, partition: Partition, record: C.CommandRecord)
    requires Inv(s) && Next(s, s', Produce(now, partition, record))
    ensures Inv(s')
  {
    hide C.Valid, Valid, C.AppendCommand, HeldAs, Data, PartitionOf;
    C.AppendCommandValid(s.commands, now, partition, record);
    forall p
      ensures Commands(s.commands, p) <= Commands(s'.commands, p) && s'.commands.Committed(p) == s.commands.Committed(p)
    {
      DataPrefix(PartitionOf(s.commands.stream, p), PartitionOf(s'.commands.stream, p));
    }
    forall i | 0 <= i < |s'.taken| ensures TakenSound(s', s'.taken[i]) {
      assert TakenSound(s, s.taken[i]);
    }
    forall p, i | 0 <= i < |Commands(s'.commands, p)| ensures HeldAs(s'.events, s'.taken, Commands(s'.commands, p)[i]) {
      if i < |Commands(s.commands, p)| {
        assert HeldAs(s.events, s.taken, Commands(s.commands, p)[i]);
      } else {
        CommandsPlaced(s'.commands, p, i);
        NewIsHeld(s, Commands(s'.commands, p)[i]);
      }
    }
    forall p, i | 0 <= i < s'.commands.Committed(p) && i < |Commands(s'.commands, p)|
      ensures WasTaken(s'.taken, Commands(s'.commands, p)[i])
    {
      assert WasTaken(s.taken, Commands(s.commands, p)[i]);
    }
  }

  /** What else is appended or seeded touches no command. */
  lemma ForeignKeeps(s: State, s': State, step: Step)
    requires Inv(s) && Next(s, s', step) && (step.ForeignAppend? || step.SeedTail?)
    ensures Inv(s')
  {
    hide C.Valid, Valid, Commands, HeldAs;
    if step.ForeignAppend? {
      AppendEventValid(s.events, step.partition, step.event);
    } else {
      SeedValid(s.events, step.partition, step.offset);
    }
    ForeignStream(s, s', step);
    forall i | 0 <= i < |s'.taken| ensures TakenSound(s', s'.taken[i]) {
      assert TakenSound(s, s.taken[i]);
    }
    forall p, i | 0 <= i < |Commands(s'.commands, p)| ensures HeldAs(s'.events, s'.taken, Commands(s'.commands, p)[i]) {
      assert HeldAs(s.events, s.taken, Commands(s.commands, p)[i]);
      ForeignHolds(s.events, s'.events, s.taken, Commands(s.commands, p)[i]);
    }
  }

  lemma ForeignStream(s: State, s': State, step: Step)
    requires Next(s, s', step) && (step.ForeignAppend? || step.SeedTail?)
    ensures s'.commands == s.commands && s'.taken == s.taken && s.events.stream <= s'.events.stream
    ensures forall i :: |s.events.stream| <= i < |s'.events.stream| ==> !s'.events.stream[i].data.id.Decided?
  {
    hide FindId;
  }

  lemma ForeignHolds(log: EventLog, log': EventLog, taken: seq<Attempt>, r: C.CommandRecord)
    requires HeldAs(log, taken, r) && Valid(log') && log.stream <= log'.stream
    requires forall i :: |log.stream| <= i < |log'.stream| ==> !log'.stream[i].data.id.Decided?
    ensures HeldAs(log', taken, r)
  {
    hide Valid, Numbered, RecordAccepted, Stored;
    var best := Longest(taken, r);
    forall k | 0 <= k < |best| ensures Stored(log', best[k].id) && RecordAccepted(log', best[k]) {
      StillAccepted(log, log', best[k]);
    }
  }

  lemma NextKeeps(s: State, s': State, step: Step)
    requires Inv(s) && Next(s, s', step)
    ensures Inv(s')
  {
    hide Inv, Delivers, C.AppendCommand, Append, Seed;
    match step {
      case Produce(now, partition, record) => ProduceKeeps(s, s', now, partition, record);
      case Deliver(partition, last, attempts) => DeliverKeeps(s, s', partition, last, attempts);
      case _ => ForeignKeeps(s, s', step);
    }
  }

  lemma {:induction false} RunKeeps(states: seq<State>, steps: seq<Step>, i: nat)
    requires Run(states, steps) && i < |states|
    ensures Inv(states[i])
  {
    hide Next, Inv;
    if i == 0 {
      InitHolds();
    } else {
      RunKeeps(states, steps, i - 1);
      NextKeeps(states[i - 1], states[i], steps[i - 1]);
    }
  }

  lemma InitHolds()
    ensures Inv(Init)
  {
  }

  // ---- The theorems -------------------------------------------------------------------------------------

  /** Over every run in which each attempt brings its own events: of a command the log
      holds exactly the longest of the attempts taken so far, every attempt taken is
      where that one starts, and one was taken if and only if the command is committed. */
  lemma StoredIsLongest(states: seq<State>, steps: seq<Step>, i: nat, p: Partition, o: int)
    requires Run(states, steps) && i < |states| && 1 <= o <= states[i].commands.Tail(p)
    ensures
      var s, r := states[i], Commands(states[i].commands, p)[o - 1];
      var best := Longest(s.taken, r);
      && Holds(s.events, r, best)
      && (best == [] || exists j :: 0 <= j < |s.taken| && s.taken[j] == Attempt(r, best))
      && (forall j :: 0 <= j < |s.taken| && s.taken[j].record == r ==> s.taken[j].events <= best)
      && (o <= s.commands.Committed(p) <==> WasTaken(s.taken, r))
  {
    hide Next, Run, C.Valid, Valid, Commands, Holds, Numbered, Longest, TakenSound, WasTaken;
    RunKeeps(states, steps, i);
    var s, r := states[i], Commands(states[i].commands, p)[o - 1];
    assert HeldAs(s.events, s.taken, r);
    LongestIsTaken(s.taken, r);
    CommandsPlaced(s.commands, p, o - 1);
    if WasTaken(s.taken, r) {
      TakenIsCommitted(s, r);
    }
  }

  lemma TakenIsCommitted(s: State, r: C.CommandRecord)
    requires WasTaken(s.taken, r) && forall i :: 0 <= i < |s.taken| ==> TakenSound(s, s.taken[i])
    ensures r.offset <= s.commands.Committed(r.partition)
  {
    hide Commands;
    var j :| 0 <= j < |s.taken| && s.taken[j].record == r;
    assert TakenSound(s, s.taken[j]);
  }

  /** And in every reachable state a delivery takes effect if and only if each of its
      attempts agrees with the longest one taken before. */
  lemma DeliveryTakenExactly(states: seq<State>, steps: seq<Step>, i: nat, p: Partition, last: int,
                             attempts: seq<Attempt>)
    requires Run(states, steps) && i < |states| && Offered(states[i].commands, p, last, attempts)
    ensures RecordsAccepted(states[i].events, AllEvents(attempts)) <==>
              forall k :: 0 <= k < |attempts| ==>
                  Agree(Longest(states[i].taken, attempts[k].record), attempts[k].events)
  {
    hide Next, C.Valid, Valid, Commands, HeldAs, Numbered, RecordsAccepted, Agree, Offered;
    RunKeeps(states, steps, i);
    var s := states[i];
    OfferedInLine(s.commands, p, last, attempts);
    forall k | 0 <= k < |attempts| ensures HeldAs(s.events, s.taken, attempts[k].record) {
      assert Commands(s.commands, p)[last + k] == attempts[k].record;
    }
    AcceptedExactly(s.events, s.taken, attempts, p, last);
  }
}
