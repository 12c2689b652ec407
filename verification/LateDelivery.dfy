/** Attempts that answer differently: the facts a decision reads may change between
    two attempts at one command, so a late delivery of an offset that is already
    committed may carry other events than those stored for it. */
module LateDelivery {
  import opened LogModel
  import opened BrokerEventLog
  import opened CommandEventTransaction
  import opened Decisions
  import opened Delivery
  import opened NativeDecider
  import C = BrokerCommandLog
  import X = ExactlyOnce

  predicate FromCommand(id: EventId, r: C.CommandRecord) {
    id.Decided? && id == Decided("evt_", r.partition, r.offset, r.actor, r.cid, r.command, id.ordinal)
  }

  /** Of the events of this command the log holds exactly these. */
  ghost predicate Holds(log: EventLog, r: C.CommandRecord, first: seq<EventRecord>) {
    && (forall k :: 0 <= k < |first| ==> Stored(log, first[k].id) && RecordAccepted(log, first[k]))
    && (forall i :: 0 <= i < |log.stream| && FromCommand(log.stream[i].data.id, r) ==>
          0 <= log.stream[i].data.id.ordinal < |first|)
  }

  /** Equal as far as both go. */
  ghost predicate Agree(first: seq<EventRecord>, retry: seq<EventRecord>) {
    forall k :: 0 <= k < |first| && k < |retry| ==> first[k] == retry[k]
  }

  /** What the later attempt has beyond the first. */
  function Extra(first: seq<EventRecord>, retry: seq<EventRecord>): seq<EventRecord> {
    if |retry| <= |first| then [] else retry[|first|..]
  }

  lemma NumberedAt(r: C.CommandRecord, events: seq<EventRecord>, k: nat)
    requires Numbered(r, events, 0) && k < |events|
    ensures StableEvent(r, events[k]) && FromCommand(events[k].id, r) && events[k].id.ordinal == k
  {
  }

  /** A stored event is accepted again only with the same content. */
  lemma SameOrRefused(log: EventLog, r: C.CommandRecord, a: EventRecord, b: EventRecord)
    requires StableEvent(r, a) && StableEvent(r, b) && a.id == b.id
    requires Stored(log, a.id) && RecordAccepted(log, a)
    ensures RecordAccepted(log, b) <==> a == b
  {
    hide FindId;
  }

  lemma NewIsAccepted(log: EventLog, r: C.CommandRecord, first: seq<EventRecord>, e: EventRecord)
    requires Holds(log, r, first) && StableEvent(r, e) && e.id.ordinal >= |first|
    ensures !Stored(log, e.id) && RecordAccepted(log, e)
  {
    if Stored(log, e.id) {
      var i :| 0 <= i < |log.stream| && log.stream[i].data.id == e.id;
      assert FromCommand(log.stream[i].data.id, r);
    }
  }

  /** The log takes a late attempt if and only if it agrees with the first one. */
  lemma LateAccepted(log: EventLog, r: C.CommandRecord, first: seq<EventRecord>, retry: seq<EventRecord>)
    requires Holds(log, r, first) && Numbered(r, first, 0) && Numbered(r, retry, 0)
    ensures RecordsAccepted(log, retry) <==> Agree(first, retry)
  {
    hide StableEvent, RecordAccepted, Stored, Holds, Numbered, FromCommand;
    forall k | 0 <= k < |retry| ensures RecordAccepted(log, retry[k]) <==> (k < |first| ==> first[k] == retry[k]) {
      NumberedAt(r, retry, k);
      if k < |first| {
        NumberedAt(r, first, k);
        HeldAt(log, r, first, k);
        SameOrRefused(log, r, first[k], retry[k]);
      } else {
        NewIsAccepted(log, r, first, retry[k]);
      }
    }
    forall i, j | 0 <= i < j < |retry| ensures retry[i].id != retry[j].id {
      NumberedAt(r, retry, i);
      NumberedAt(r, retry, j);
    }
  }

  lemma HeldAt(log: EventLog, r: C.CommandRecord, first: seq<EventRecord>, k: nat)
    requires Holds(log, r, first) && Numbered(r, first, 0) && k < |first|
    ensures Stored(log, first[k].id) && RecordAccepted(log, first[k]) && FromCommand(first[k].id, r)
  {
  }

  /** Taken, it appends exactly what it has beyond the first. */
  lemma LateEffect(log: EventLog, r: C.CommandRecord, first: seq<EventRecord>, retry: seq<EventRecord>)
    requires Valid(log) && Holds(log, r, first) && Numbered(r, first, 0) && Numbered(r, retry, 0) && Agree(first, retry)
    ensures AppendAll(log, retry).Ok?
    ensures
      var after := AppendAll(log, retry).value.log;
      && Origin(after.stream, r.partition) == Origin(log.stream, r.partition) + Extra(first, retry)
      && (|retry| <= |first| ==> after == log)
  {
    hide Valid, StableEvent, RecordAccepted, Stored, Holds, Numbered, AppendAll, Origin, Reached, FromCommand;
    var n := if |retry| <= |first| then |retry| else |first|;
    var known, news := retry[..n], retry[n..];
    assert retry == known + news;
    LateAccepted(log, r, first, retry);
    forall k | 0 <= k < n ensures RecordAccepted(log, known[k]) && Stored(log, known[k].id) {
      assert retry[k] == first[k];
      HeldAt(log, r, first, k);
    }
    AppendAllStored(log, known);
    AppendAllConcat(log, known, news);
    forall k | 0 <= k < |news|
      ensures RecordAccepted(log, news[k]) && DecidedIn(news[k], r.partition, r.offset - 1, r.offset)
      ensures !Stored(log, news[k].id)
    {
      NumberedAt(r, retry, n + k);
      NewIsAccepted(log, r, first, news[k]);
      StableIsDecided(r, news[k]);
    }
    forall i, j | 0 <= i < j < |news| ensures news[i].id != news[j].id {
      NumberedAt(r, retry, n + i);
      NumberedAt(r, retry, n + j);
    }
    assert RecordsAccepted(log, news);
    FreshOrigin(log, news, r.partition, r.offset - 1, r.offset, |news|, r.partition);
    assert news[..|news|] == news;
    ReachedAll(log, news);
    if news == [] {
      NothingAppended(log);
    }
  }

  lemma StableIsDecided(r: C.CommandRecord, e: EventRecord)
    requires StableEvent(r, e)
    ensures DecidedIn(e, r.partition, r.offset - 1, r.offset)
  {
  }

  lemma ReachedAll(log: EventLog, records: seq<EventRecord>)
    requires Valid(log) && RecordsAccepted(log, records)
    ensures AppendAll(log, records).Ok? && Reached(log, records, |records|) == AppendAll(log, records).value
  {
    hide Valid, RecordAccepted;
    AppendAllDescribes(log, records);
    assert records[..|records|] == records;
  }

  lemma NothingAppended(log: EventLog)
    ensures AppendAll(log, []) == Ok(Batch(log, []))
  {
  }

  // ---- In every reachable state ---------------------------------------------------------------

  /** What a state of the write path holds of a committed command is what was decided. */
  lemma CommittedIsHeld(decide: Decider, log: EventLog, p: Partition, done: seq<C.CommandRecord>, j: nat)
    requires Stable(decide) && Valid(log) && InStep(decide, log, p, done) && Slice(done, p, 0) && j < |done|
    requires Numbered(done[j], EventsOf(decide(done[j])), 0)
    ensures Holds(log, done[j], EventsOf(decide(done[j])))
  {
    hide Valid, Stable, DecidedEvents, Origin, RecordAccepted, Stored, StoredInOrder, Numbered;
    var r := done[j];
    var first := EventsOf(decide(r));
    assert done[j..j + 1] == [r];
    DecidedSingle(decide, r);
    OverlapStored(decide, log, p, done, j, [r]);
    InOrderIsStored(log, first);
    forall i | 0 <= i < |log.stream| && FromCommand(log.stream[i].data.id, r)
      ensures 0 <= log.stream[i].data.id.ordinal < |first|
    {
      StoredOrdinal(decide, log, p, done, j, i);
    }
  }

  lemma InOrderIsStored(log: EventLog, events: seq<EventRecord>)
    requires StoredInOrder(log, events)
    ensures forall k :: 0 <= k < |events| ==> Stored(log, events[k].id)
  {
  }

  /** A stored event of a committed command is one of those decided for it. */
  lemma StoredOrdinal(decide: Decider, log: EventLog, p: Partition, done: seq<C.CommandRecord>, j: nat, i: nat)
    requires Stable(decide) && InStep(decide, log, p, done) && Slice(done, p, 0) && j < |done| && i < |log.stream|
    requires Numbered(done[j], EventsOf(decide(done[j])), 0) && FromCommand(log.stream[i].data.id, done[j])
    ensures 0 <= log.stream[i].data.id.ordinal < |EventsOf(decide(done[j]))|
  {
    hide Stable, DecidedEvents, Origin, DecidedIn;
    OriginHas(log.stream, p, i);
    var e := log.stream[i].data.(offset := 0);
    var a :| 0 <= a < |DecidedEvents(decide, done)| && DecidedEvents(decide, done)[a] == e;
    var before, own, after := done[..j], [done[j]], done[j + 1..];
    assert done == before + own + after;
    DecidedConcat(decide, before, own);
    DecidedConcat(decide, before + own, after);
    DecidedSingle(decide, done[j]);
    DecidedOffsets(decide, before, p, 0);
    DecidedOffsets(decide, after, p, j + 1);
    var n, m := |DecidedEvents(decide, before)|, |EventsOf(decide(done[j]))|;
    if a < n {
      DecidedWhere(DecidedEvents(decide, before)[a], p, 0, j);
      assert false;
    } else if a < n + m {
      assert e == EventsOf(decide(done[j]))[a - n];
    } else {
      DecidedWhere(DecidedEvents(decide, after)[a - n - m], p, j + 1, |done|);
      assert false;
    }
  }

  lemma DecidedWhere(e: EventRecord, p: Partition, lo: int, hi: int)
    requires DecidedIn(e, p, lo, hi)
    ensures lo < e.id.offset <= hi
  {
  }

  /** Over every run, a late attempt at a committed command that answers `retry` is taken
      if and only if it agrees with what was decided first as far as both go; taken, it
      appends exactly what it has beyond that, so it changes nothing if and only if it
      is no longer. */
  lemma LateDeliveryExactly(decide: Decider, states: seq<X.State>, i: nat, p: Partition, o: int,
                            retry: seq<EventRecord>)
    requires Stable(decide) && X.Run(decide, states) && i < |states| && 1 <= o <= states[i].commands.Tail(p)
    requires o <= states[i].commands.Committed(p)
    requires
      var r := Commands(states[i].commands, p)[o - 1];
      Numbered(r, EventsOf(decide(r)), 0) && Numbered(r, retry, 0)
    ensures
      var log, first := states[i].events, EventsOf(decide(Commands(states[i].commands, p)[o - 1]));
      && (RecordsAccepted(log, retry) <==> Agree(first, retry))
      && (Agree(first, retry) ==>
            && AppendAll(log, retry).Ok?
            && var after := AppendAll(log, retry).value.log;
            && Origin(after.stream, p) == Origin(log.stream, p) + Extra(first, retry)
            && (after == log <==> |retry| <= |first|))
  {
    hide Stable, X.Run, Valid, C.Valid, Numbered, RecordsAccepted, AppendAll, Holds, Agree, Origin, InStep, Commands;
    X.RunKeeps(decide, states, i);
    var s := states[i];
    X.ValidOf(decide, s);
    assert X.Settled(decide, s.commands, s.events, p);
    var done := X.Done(s.commands, p);
    var r := Commands(s.commands, p)[o - 1];
    X.DoneSlice(s.commands, p);
    assert done[o - 1] == r && r.partition == p;
    CommittedIsHeld(decide, s.events, p, done, o - 1);
    LateAccepted(s.events, r, EventsOf(decide(r)), retry);
    if Agree(EventsOf(decide(r)), retry) {
      LateEffect(s.events, r, EventsOf(decide(r)), retry);
    }
  }

  // ---- Facts that change ----------------------------------------------------------------------

  /** One more automod action at the second attempt: the attempts agree and the late one
      brings two events more. */
  lemma ExtraAutomodPair(r: C.CommandRecord, ts: int, post: Body, facts: Facts, actions: seq<Action>, event: Body, audit: Body)
    requires facts.mailBack.None? && facts.automod == Some(actions)
    ensures
      var first := AppendPostEvents(r, ts, post, facts);
      var retry := AppendPostEvents(r, ts, post, facts.(automod := Some(actions + [Known(event, audit)])));
      && Agree(first, retry)
      && Extra(first, retry) == [NativeEvent(r, ts, |first|, event), NativeEvent(r, ts, |first| + 1, audit)]
  {
    hide NativeEvent, ActionEvents;
    var more := actions + [Known(event, audit)];
    var filtered := [NativeEvent(r, ts, 0, post)] + ContentFilterEvents(r, ts, facts, 1);
    assert ContentFilterEvents(r, ts, facts.(automod := Some(more)), 1) == ContentFilterEvents(r, ts, facts, 1);
    OneMoreAction(r, ts, actions, event, audit, |filtered|);
    var first := filtered + ActionEvents(r, ts, actions, |filtered|);
    var pair := [NativeEvent(r, ts, |first|, event), NativeEvent(r, ts, |first| + 1, audit)];
    assert filtered + ActionEvents(r, ts, more, |filtered|) == first + pair;
    BeyondFirst(first, pair);
  }

  lemma OneMoreAction(r: C.CommandRecord, ts: int, actions: seq<Action>, event: Body, audit: Body, start: int)
    ensures
      var init := ActionEvents(r, ts, actions, start);
      ActionEvents(r, ts, actions + [Known(event, audit)], start) ==
      init + [NativeEvent(r, ts, start + |init|, event), NativeEvent(r, ts, start + |init| + 1, audit)]
  {
    hide NativeEvent;
    assert (actions + [Known(event, audit)])[..|actions|] == actions;
  }

  lemma BeyondFirst(first: seq<EventRecord>, more: seq<EventRecord>)
    ensures Agree(first, first + more) && Extra(first, first + more) == more
  {
  }

  /** With a mail-back event after it, its ordinal moves and the late attempt is refused. */
  lemma ExtraPairMovesMailBack(r: C.CommandRecord, ts: int, post: Body, facts: Facts, actions: seq<Action>, event: Body, audit: Body)
    requires facts.automod == Some(actions) && facts.mailBack.Some? && facts.mailBack.value != event
    ensures
      var first := AppendPostEvents(r, ts, post, facts);
      var retry := AppendPostEvents(r, ts, post, facts.(automod := Some(actions + [Known(event, audit)])));
      !Agree(first, retry)
  {
    var more := actions + [Known(event, audit)];
    var first := AppendPostEvents(r, ts, post, facts);
    var retry := AppendPostEvents(r, ts, post, facts.(automod := Some(more)));
    ExtraAutomodPair(r, ts, post, facts.(mailBack := None), actions, event, audit);
    var short := AppendPostEvents(r, ts, post, facts.(mailBack := None));
    assert first == short + [NativeEvent(r, ts, |short|, facts.mailBack.value)];
    assert retry[|short|] == NativeEvent(r, ts, |short|, event);
  }
}
