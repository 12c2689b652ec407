/** Event ordinals and identities of native decisions.  What the events say is left
    abstract. */
module NativeDecider {
  import opened LogModel
  import opened BrokerEventLog
  import opened CommandEventTransaction
  import opened Decisions
  import C = BrokerCommandLog
  import X = ExactlyOnce

  /** What an event says, and where it goes. */
  datatype Body = Body(kind: string, scopes: seq<string>, payload: string, partition: Partition)

  ghost predicate Writable(body: Body) {
    body.kind != "" && body.payload != "" && body.partition.Normal()
  }

  function StableId(prefix: string, r: C.CommandRecord, ordinal: int): EventId {
    Decided(prefix, r.partition.Normalize(), r.offset, r.actor, r.cid, r.command, ordinal)
  }

  /** Events carry the time the command was enqueued; a record without one would take
      the clock. */
  function Timestamp(r: C.CommandRecord, now: int): int {
    if r.enqueuedAt > 0 then r.enqueuedAt else now
  }

  function NativeEvent(r: C.CommandRecord, ts: int, ordinal: int, body: Body): EventRecord {
    EventRecord(StableId("evt_", r, ordinal), body.kind, 0, body.scopes, body.payload, ts, body.partition, 0)
  }

  ghost predicate Dated(r: C.CommandRecord, ts: int) {
    r.partition.Normal() && ts > 0
  }

  /** Events numbered start, start + 1, ... */
  ghost predicate Numbered(r: C.CommandRecord, events: seq<EventRecord>, start: int) {
    forall k :: 0 <= k < |events| ==> StableEvent(r, events[k]) && events[k].id.ordinal == start + k
  }

  lemma NumberedAppend(r: C.CommandRecord, a: seq<EventRecord>, b: seq<EventRecord>, start: int)
    requires Numbered(r, a, start) && Numbered(r, b, start + |a|)
    ensures Numbered(r, a + b, start)
  {
    hide StableEvent;
  }

  lemma NumberedOne(r: C.CommandRecord, ts: int, ordinal: int, body: Body)
    requires Dated(r, ts) && Writable(body)
    ensures Numbered(r, [NativeEvent(r, ts, ordinal, body)], ordinal)
  {
  }

  // ---- Generated system posts ------------------------------------------------------------

  datatype BoardMode = Never | IfMissingCompact | IfMissingReserve | AlwaysNextPosition | AlwaysUpsert

  datatype SystemPost = SystemPost(board: Body, thread: Body, post: Body, mode: BoardMode)

  ghost predicate PostWritable(spec: SystemPost) {
    Writable(spec.board) && Writable(spec.thread) && Writable(spec.post)
  }

  predicate CreatesBoard(mode: BoardMode, boardExists: bool) {
    match mode
    case Never => false
    case IfMissingCompact => !boardExists
    case IfMissingReserve => !boardExists
    case AlwaysNextPosition => true
    case AlwaysUpsert => true
  }

  /** The ordinal of the thread event. */
  function ThreadOrdinal(mode: BoardMode, boardExists: bool, start: int): int {
    if CreatesBoard(mode, boardExists) || mode.IfMissingReserve? then start + 1 else start
  }

  function SystemPostEvents(r: C.CommandRecord, ts: int, spec: SystemPost, boardExists: bool,
                            start: int): seq<EventRecord> {
    var board := if CreatesBoard(spec.mode, boardExists) then [NativeEvent(r, ts, start, spec.board)] else [];
    var at := ThreadOrdinal(spec.mode, boardExists, start);
    board + [NativeEvent(r, ts, at, spec.thread), NativeEvent(r, ts, at + 1, spec.post)]
  }

  ghost predicate Ascending(r: C.CommandRecord, events: seq<EventRecord>, start: int) {
    && (forall k :: 0 <= k < |events| ==> StableEvent(r, events[k]) && events[k].id.ordinal >= start)
    && (forall k, l :: 0 <= k < l < |events| ==> events[k].id.ordinal < events[l].id.ordinal)
  }

  /** Ordinals always increase; they leave a hole in reserve mode only, when the
      board is there already. */
  lemma SystemPostOrdinals(r: C.CommandRecord, ts: int, spec: SystemPost, boardExists: bool, start: int)
    requires Dated(r, ts) && PostWritable(spec)
    ensures Ascending(r, SystemPostEvents(r, ts, spec, boardExists, start), start)
    ensures Numbered(r, SystemPostEvents(r, ts, spec, boardExists, start), start) <==>
              !(spec.mode.IfMissingReserve? && boardExists)
  {
    var events := SystemPostEvents(r, ts, spec, boardExists, start);
    assert |events| == 3 ==> CreatesBoard(spec.mode, boardExists);
    assert events[0].id.ordinal == if CreatesBoard(spec.mode, boardExists) then start else ThreadOrdinal(spec.mode, boardExists, start);
  }

  /** The hole is what a later event numbered by the length of the list would run
      into: in reserve mode nothing may follow. */
  lemma ReserveLeavesNoRoom(r: C.CommandRecord, ts: int, spec: SystemPost, start: int, next: Body)
    requires spec.mode.IfMissingReserve?
    ensures
      var events := SystemPostEvents(r, ts, spec, true, start);
      NativeEvent(r, ts, start + |events|, next).id == events[|events| - 1].id
  {
  }

  function ThreadAndPost(events: seq<EventRecord>): seq<EventRecord>
    requires |events| >= 2
  {
    events[|events| - 2..]
  }

  /** In reserve mode a retry derives the same thread and post events whether or not
      the board was created in between. */
  lemma ReserveIgnoresBoard(r: C.CommandRecord, ts: int, spec: SystemPost, start: int, before: bool, after: bool)
    requires spec.mode.IfMissingReserve?
    ensures ThreadAndPost(SystemPostEvents(r, ts, spec, before, start)) ==
            ThreadAndPost(SystemPostEvents(r, ts, spec, after, start))
  {
  }

  /** So whatever the board does, a retried transaction is accepted: every event of
      it that is stored is the same event. */
  lemma ReserveRetryIsAccepted(log: EventLog, r: C.CommandRecord, ts: int, spec: SystemPost, start: int)
    requires Valid(log) && Dated(r, ts) && PostWritable(spec) && spec.mode.IfMissingReserve?
    requires RecordsAccepted(log, SystemPostEvents(r, ts, spec, false, start))
    ensures
      var once := AppendAll(log, SystemPostEvents(r, ts, spec, false, start));
      && once.Ok?
      && var again := AppendAll(once.value.log, SystemPostEvents(r, ts, spec, true, start));
      again.Ok? && again.value.log == once.value.log
  {
    hide Valid, AppendAll, RecordAccepted, FindId;
    var first, retry := SystemPostEvents(r, ts, spec, false, start), SystemPostEvents(r, ts, spec, true, start);
    RepeatAppends(log, first);
    AppendAllDescribes(log, first);
    var log' := AppendAll(log, first).value.log;
    forall i | 0 <= i < |retry| ensures RecordAccepted(log', retry[i]) && Stored(log', retry[i].id) {
      assert retry[i] == first[i + 1];
      assert Answers(log, log', first[i + 1], AppendAll(log, first).value.messages[i + 1]);
    }
    AppendAllStored(log', retry);
  }

  /** In compact mode the identities move unless the board did not. */
  lemma CompactDependsOnBoard(r: C.CommandRecord, ts: int, spec: SystemPost, start: int, before: bool, after: bool)
    requires spec.mode.IfMissingCompact?
    ensures
      ThreadAndPost(SystemPostEvents(r, ts, spec, before, start)) == ThreadAndPost(SystemPostEvents(r, ts, spec, after, start))
      <==> before == after
  {
  }

  /** Where the board was created by the first attempt, the retry puts its thread event
      under the board event's id, and the log refuses it. */
  lemma CompactRetryIsRefused(log: EventLog, r: C.CommandRecord, ts: int, spec: SystemPost, start: int)
    requires Valid(log) && Dated(r, ts) && PostWritable(spec) && spec.mode.IfMissingCompact?
    requires spec.board != spec.thread
    requires RecordsAccepted(log, SystemPostEvents(r, ts, spec, false, start))
    ensures
      var once := AppendAll(log, SystemPostEvents(r, ts, spec, false, start));
      && once.Ok?
      && !RecordsAccepted(once.value.log, SystemPostEvents(r, ts, spec, true, start))
      && AppendAll(once.value.log, SystemPostEvents(r, ts, spec, true, start)).Err?
  {
    hide Valid, AppendAll, RecordsAccepted, FindId;
    var first, retry := SystemPostEvents(r, ts, spec, false, start), SystemPostEvents(r, ts, spec, true, start);
    AppendAllDescribes(log, first);
    var log' := AppendAll(log, first).value.log;
    assert Answers(log, log', first[0], AppendAll(log, first).value.messages[0]);
    assert first[0] == NativeEvent(r, ts, start, spec.board) && retry[0] == NativeEvent(r, ts, start, spec.thread);
    OtherContentIsRefused(log', first[0], retry);
  }

  /** A batch whose first record has an id stored with other content is not accepted. */
  lemma OtherContentIsRefused(log: EventLog, stored: EventRecord, records: seq<EventRecord>)
    requires records != [] && stored.id == records[0].id && stored.id != NoId
    requires !SameIdentity(Request(stored), Request(records[0]))
    requires FindId(log.stream, stored.id).Some?
    requires SameIdentity(FindId(log.stream, stored.id).value.data, Request(stored))
    ensures !RecordsAccepted(log, records) && AppendAll(log, records).Err?
  {
    assert !RecordAccepted(log, records[0]);
    FirstIsRefused(log, records);
  }

  lemma {:induction false} FirstIsRefused(log: EventLog, records: seq<EventRecord>)
    requires records != [] && Append(log, records[0].partition, Request(records[0])).Err?
    ensures AppendAll(log, records).Err?
  {
    hide Append;
    var n := |records| - 1;
    if n == 0 {
      assert AppendAll(log, records[..n]) == Ok(Batch(log, []));
    } else {
      FirstIsRefused(log, records[..n]);
    }
  }

  // ---- The branches of a decision ----------------------------------------------------------

  /** A matched content filter: the flag on the post, and the review post that a
      public board gets. */
  datatype Filter = Filter(flag: Body, board: Body, thread: Body, post: Body)

  function Review(filter: Filter): SystemPost {
    SystemPost(filter.board, filter.thread, filter.post, AlwaysNextPosition)
  }

  /** What the database says while a post is decided. */
  datatype Facts = Facts(filter: Option<Filter>, publicBoard: bool, boardExists: bool,
                         automod: Option<seq<Action>>, mailBack: Option<Body>)

  /** An automod action: known ones come with an event and an audit entry. */
  datatype Action = Known(event: Body, audit: Body) | Ignored

  ghost predicate FactsWritable(facts: Facts) {
    && (facts.filter.Some? ==> Writable(facts.filter.value.flag) && PostWritable(Review(facts.filter.value)))
    && (facts.automod.Some? ==> ActionsWritable(facts.automod.value))
    && (facts.mailBack.Some? ==> Writable(facts.mailBack.value))
  }

  /** The flag, and on a public board the review post. */
  function ContentFilterEvents(r: C.CommandRecord, ts: int, facts: Facts, start: int): seq<EventRecord> {
    if facts.filter.None? then []
    else
      var flag := [NativeEvent(r, ts, start, facts.filter.value.flag)];
      if !facts.publicBoard then flag
      else flag + SystemPostEvents(r, ts, Review(facts.filter.value), facts.boardExists, start + |flag|)
  }

  lemma ContentFilterNumbered(r: C.CommandRecord, ts: int, facts: Facts, start: int)
    requires Dated(r, ts) && FactsWritable(facts)
    ensures Numbered(r, ContentFilterEvents(r, ts, facts, start), start)
    ensures |ContentFilterEvents(r, ts, facts, start)| ==
            if facts.filter.None? then 0 else if facts.publicBoard then 4 else 1
  {
    hide StableEvent;
    if facts.filter.Some? {
      var filter := facts.filter.value;
      NumberedOne(r, ts, start, filter.flag);
      SystemPostOrdinals(r, ts, Review(filter), facts.boardExists, start + 1);
      NumberedAppend(r, [NativeEvent(r, ts, start, filter.flag)],
                     SystemPostEvents(r, ts, Review(filter), facts.boardExists, start + 1), start);
    }
  }

  /** Each known action takes two ordinals: its event, then its audit entry. */
  function ActionEvents(r: C.CommandRecord, ts: int, actions: seq<Action>, start: int): seq<EventRecord> {
    if actions == [] then []
    else
      var init, action := ActionEvents(r, ts, actions[..|actions| - 1], start), actions[|actions| - 1];
      var idx := start + |init|;
      if action.Ignored? then init
      else init + [NativeEvent(r, ts, idx, action.event), NativeEvent(r, ts, idx + 1, action.audit)]
  }

  function KnownActions(actions: seq<Action>): nat {
    if actions == [] then 0 else KnownActions(actions[..|actions| - 1]) + if actions[|actions| - 1].Known? then 1 else 0
  }

  ghost predicate ActionsWritable(actions: seq<Action>) {
    forall i :: 0 <= i < |actions| && actions[i].Known? ==> Writable(actions[i].event) && Writable(actions[i].audit)
  }

  lemma {:induction false} ActionsNumbered(r: C.CommandRecord, ts: int, actions: seq<Action>, start: int)
    requires Dated(r, ts) && ActionsWritable(actions)
    ensures Numbered(r, ActionEvents(r, ts, actions, start), start)
    ensures |ActionEvents(r, ts, actions, start)| == 2 * KnownActions(actions)
  {
    hide StableEvent, Writable;
    if actions != [] {
      var n := |actions| - 1;
      ActionsNumbered(r, ts, actions[..n], start);
      var init, action := ActionEvents(r, ts, actions[..n], start), actions[n];
      var idx := start + |init|;
      if action.Known? {
        NumberedOne(r, ts, idx, action.event);
        NumberedOne(r, ts, idx + 1, action.audit);
        var both := [NativeEvent(r, ts, idx, action.event), NativeEvent(r, ts, idx + 1, action.audit)];
        assert both == [NativeEvent(r, ts, idx, action.event)] + [NativeEvent(r, ts, idx + 1, action.audit)];
        NumberedAppend(r, [NativeEvent(r, ts, idx, action.event)], [NativeEvent(r, ts, idx + 1, action.audit)], idx);
        NumberedAppend(r, init, both, start);
      }
    }
  }

  function AutomodOf(r: C.CommandRecord, ts: int, facts: Facts, start: int): seq<EventRecord> {
    if facts.automod.None? then [] else ActionEvents(r, ts, facts.automod.value, start)
  }

  /** The loop over a rule's actions, with its running index. */
  method AutomodEvents(r: C.CommandRecord, ts: int, facts: Facts, start: int) returns (events: seq<EventRecord>)
    ensures events == AutomodOf(r, ts, facts, start)
  {
    events := [];
    if facts.automod.None? {
      return;
    }
    var actions := facts.automod.value;
    var idx := start;
    var i := 0;
    while i < |actions|
      invariant 0 <= i <= |actions| && idx == start + |events| && events == ActionEvents(r, ts, actions[..i], start)
    {
      var action := actions[i];
      assert actions[..i + 1][..i] == actions[..i];
      i := i + 1;
      if action.Ignored? {
        continue;
      }
      events := events + [NativeEvent(r, ts, idx, action.event)];
      idx := idx + 1;
      events := events + [NativeEvent(r, ts, idx, action.audit)];
      idx := idx + 1;
    }
    assert actions[..i] == actions;
  }

  // ---- The two decisions ----------------------------------------------------------------------

  /** What follows the given events: content filter, then automod, each numbered by
      the length of the list so far. */
  function Reviewed(r: C.CommandRecord, ts: int, events: seq<EventRecord>, facts: Facts): seq<EventRecord> {
    var filtered := events + ContentFilterEvents(r, ts, facts, |events|);
    filtered + AutomodOf(r, ts, facts, |filtered|)
  }

  function CreateThreadEvents(r: C.CommandRecord, ts: int, thread: Body, post: Body, facts: Facts): seq<EventRecord> {
    Reviewed(r, ts, [NativeEvent(r, ts, 0, thread), NativeEvent(r, ts, 1, post)], facts)
  }

  function AppendPostEvents(r: C.CommandRecord, ts: int, post: Body, facts: Facts): seq<EventRecord> {
    var events := Reviewed(r, ts, [NativeEvent(r, ts, 0, post)], facts);
    if facts.mailBack.None? then events else events + [NativeEvent(r, ts, |events|, facts.mailBack.value)]
  }

  lemma ReviewedNumbered(r: C.CommandRecord, ts: int, events: seq<EventRecord>, facts: Facts)
    requires Dated(r, ts) && FactsWritable(facts) && Numbered(r, events, 0)
    ensures Numbered(r, Reviewed(r, ts, events, facts), 0)
  {
    hide StableEvent, Numbered, ContentFilterEvents, ActionEvents;
    ContentFilterNumbered(r, ts, facts, |events|);
    var filter := ContentFilterEvents(r, ts, facts, |events|);
    NumberedAppend(r, events, filter, 0);
    if facts.automod.Some? {
      ActionsNumbered(r, ts, facts.automod.value, |events + filter|);
      NumberedAppend(r, events + filter, ActionEvents(r, ts, facts.automod.value, |events + filter|), 0);
    } else {
      assert (events + filter) + [] == events + filter;
    }
  }

  /** For every mix of content-filter and automod branches the ordinals of a
      create-thread decision are 0, 1, 2, ... */
  lemma CreateThreadNumbered(r: C.CommandRecord, ts: int, thread: Body, post: Body, facts: Facts)
    requires Dated(r, ts) && Writable(thread) && Writable(post) && FactsWritable(facts)
    ensures Numbered(r, CreateThreadEvents(r, ts, thread, post, facts), 0)
  {
    hide FactsWritable, Reviewed;
    ReviewedNumbered(r, ts, [NativeEvent(r, ts, 0, thread), NativeEvent(r, ts, 1, post)], facts);
  }

  /** The same for append-post, with the mail-back branch. */
  lemma AppendPostNumbered(r: C.CommandRecord, ts: int, post: Body, facts: Facts)
    requires Dated(r, ts) && Writable(post) && FactsWritable(facts)
    ensures Numbered(r, AppendPostEvents(r, ts, post, facts), 0)
  {
    hide Reviewed, Numbered, Writable, StableEvent;
    NumberedOne(r, ts, 0, post);
    ReviewedNumbered(r, ts, [NativeEvent(r, ts, 0, post)], facts);
    if facts.mailBack.Some? {
      var events := Reviewed(r, ts, [NativeEvent(r, ts, 0, post)], facts);
      NumberedOne(r, ts, |events|, facts.mailBack.value);
      NumberedAppend(r, events, [NativeEvent(r, ts, |events|, facts.mailBack.value)], 0);
    }
  }

  /** Numbered events make a stable decision: no two of its ids clash. */
  lemma NumberedIsStable(r: C.CommandRecord, events: seq<EventRecord>)
    requires Numbered(r, events, 0)
    ensures StableDecision(r, Applied(events)) && DistinctIds(events)
  {
  }

  // ---- The native decider -------------------------------------------------------------------------

  /** What the rules make of a record: which decision, with which bodies and facts. */
  datatype Plan =
    | CreateThread(thread: Body, post: Body, facts: Facts)
    | AppendPost(post: Body, facts: Facts)
    | Refuse

  ghost predicate PlanWritable(plan: Plan) {
    match plan
    case CreateThread(thread, post, facts) => Writable(thread) && Writable(post) && FactsWritable(facts)
    case AppendPost(post, facts) => Writable(post) && FactsWritable(facts)
    case Refuse => true
  }

  function DecisionOf(r: C.CommandRecord, ts: int, plan: Plan): Decision {
    match plan
    case CreateThread(thread, post, facts) => Applied(CreateThreadEvents(r, ts, thread, post, facts))
    case AppendPost(post, facts) => Applied(AppendPostEvents(r, ts, post, facts))
    case Refuse => Terminal
  }

  /** The decider, evaluated at clock time `now`. */
  function NativeDecide(rules: C.CommandRecord -> Plan, now: int): Decider {
    (r: C.CommandRecord) => DecisionOf(r, Timestamp(r, now), rules(r))
  }

  /** The native decider is stable on everything the log holds. */
  lemma NativeIsStable(rules: C.CommandRecord -> Plan, now: int)
    requires forall r :: Logged(r) ==> PlanWritable(rules(r))
    ensures Stable(NativeDecide(rules, now))
  {
    hide CreateThreadEvents, AppendPostEvents, StableDecision, Numbered;
    forall r | Logged(r) ensures StableDecision(r, NativeDecide(rules, now)(r)) {
      var ts := Timestamp(r, now);
      match rules(r) {
        case CreateThread(thread, post, facts) =>
          CreateThreadNumbered(r, ts, thread, post, facts);
          NumberedIsStable(r, CreateThreadEvents(r, ts, thread, post, facts));
        case AppendPost(post, facts) =>
          AppendPostNumbered(r, ts, post, facts);
          NumberedIsStable(r, AppendPostEvents(r, ts, post, facts));
        case Refuse =>
          RefusedIsStable(r);
      }
    }
  }

  lemma RefusedIsStable(r: C.CommandRecord)
    ensures StableDecision(r, Terminal)
  {
  }

  /** On what the log holds the clock makes no difference. */
  lemma ClockDoesNotMatter(rules: C.CommandRecord -> Plan, now: int, later: int, r: C.CommandRecord)
    requires Logged(r)
    ensures NativeDecide(rules, now)(r) == NativeDecide(rules, later)(r)
  {
    assert Timestamp(r, now) == Timestamp(r, later);
    assert NativeDecide(rules, now)(r) == DecisionOf(r, Timestamp(r, now), rules(r));
    assert NativeDecide(rules, later)(r) == DecisionOf(r, Timestamp(r, later), rules(r));
  }

  /** It would on a record without an enqueue time: a retry at another time derives
      the same id with other content, which the log refuses. */
  lemma UnloggedIsNotStable(log: EventLog, r: C.CommandRecord, body: Body, now: int, later: int)
    requires Valid(log) && r.enqueuedAt <= 0 && now != later && later > 0
    requires
      var first := NativeEvent(r, Timestamp(r, now), 0, body);
      FindId(log.stream, first.id).Some? && SameIdentity(FindId(log.stream, first.id).value.data, first)
    ensures
      var retry := NativeEvent(r, Timestamp(r, later), 0, body);
      Append(log, body.partition, retry).Err?
  {
  }

  /** So every run of the write path with the native decider is exactly once. */
  lemma NativeExactlyOnce(rules: C.CommandRecord -> Plan, now: int, states: seq<X.State>, i: nat, p: Partition)
    requires forall r :: Logged(r) ==> PlanWritable(rules(r))
    requires X.Run(NativeDecide(rules, now), states) && i < |states|
    ensures
      var s := states[i];
      && 0 <= s.commands.Committed(p) <= s.commands.Tail(p)
      && Origin(s.events.stream, p) == DecidedEvents(NativeDecide(rules, now), Commands(s.commands, p)[..s.commands.Committed(p)])
  {
    hide Stable;
    NativeIsStable(rules, now);
    X.ExactlyOnceInOrder(NativeDecide(rules, now), states, i, p);
  }
}
