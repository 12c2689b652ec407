/** In which order the events of a native decision come and what each of them says, and
    why a projection can take them one after another. */
module DecisionOrder {
  import opened LogModel
  import opened BrokerEventLog
  import opened NativeDecider
  import opened HotProjection
  import C = BrokerCommandLog

  /** The event says this, and goes there. */
  ghost predicate Tells(e: EventRecord, ts: int, body: Body) {
    e.kind == body.kind && e.scopes == body.scopes && e.payload == body.payload && e.partition == body.partition && e.ts == ts
  }

  /** A generated post: the board's event if it is created, then the thread, then the
      post.  The board is created always, if it is missing, or never. */
  lemma SystemPostLayout(r: C.CommandRecord, ts: int, spec: SystemPost, boardExists: bool, start: int)
    ensures
      var events, n := SystemPostEvents(r, ts, spec, boardExists, start), |SystemPostEvents(r, ts, spec, boardExists, start)|;
      var creates := spec.mode == AlwaysNextPosition || spec.mode == AlwaysUpsert
                     || ((spec.mode == IfMissingCompact || spec.mode == IfMissingReserve) && !boardExists);
      && n == (if creates then 3 else 2) && (creates ==> Tells(events[0], ts, spec.board))
      && Tells(events[n - 2], ts, spec.thread) && Tells(events[n - 1], ts, spec.post)
  {
  }

  /** The flag comes first, and on a public board the review post with its board. */
  lemma FilterLayout(r: C.CommandRecord, ts: int, facts: Facts, start: int)
    ensures
      var events := ContentFilterEvents(r, ts, facts, start);
      && |events| == (if facts.filter.None? then 0 else if facts.publicBoard then 4 else 1)
      && (facts.filter.Some? ==> Tells(events[0], ts, facts.filter.value.flag))
      && (facts.filter.Some? && facts.publicBoard ==>
            && Tells(events[1], ts, facts.filter.value.board) && Tells(events[2], ts, facts.filter.value.thread)
            && Tells(events[3], ts, facts.filter.value.post))
  {
    if facts.filter.Some? {
      SystemPostLayout(r, ts, Review(facts.filter.value), facts.boardExists, start + 1);
    }
  }

  /** Each known action, in order: its event, then its audit entry. */
  lemma {:induction false} ActionsLayout(r: C.CommandRecord, ts: int, actions: seq<Action>, start: int, i: nat)
    requires i < |actions| && actions[i].Known?
    ensures
      var events, at := ActionEvents(r, ts, actions, start), 2 * KnownActions(actions[..i]);
      at + 1 < |events| && Tells(events[at], ts, actions[i].event) && Tells(events[at + 1], ts, actions[i].audit)
  {
    var n := |actions| - 1;
    if i < n {
      ActionsLayout(r, ts, actions[..n], start, i);
      assert actions[..n][..i] == actions[..i];
    } else {
      ActionsLength(r, ts, actions[..n], start);
    }
  }

  lemma {:induction false} ActionsLength(r: C.CommandRecord, ts: int, actions: seq<Action>, start: int)
    ensures |ActionEvents(r, ts, actions, start)| == 2 * KnownActions(actions)
  {
    if actions != [] {
      ActionsLength(r, ts, actions[..|actions| - 1], start);
    }
  }

  ghost function KnownAmong(actions: seq<Action>): set<int> {
    set i | 0 <= i < |actions| && actions[i].Known?
  }

  lemma {:induction false} KnownCount(actions: seq<Action>)
    ensures KnownActions(actions) == |KnownAmong(actions)|
  {
    if actions == [] {
      assert KnownAmong(actions) == {};
    } else {
      var n := |actions| - 1;
      KnownCount(actions[..n]);
      var some := KnownAmong(actions[..n]);
      assert KnownAmong(actions) == if actions[n].Known? then some + {n} else some;
    }
  }

  /** How many events the content filter and automod add. */
  ghost function FilterSize(facts: Facts): nat {
    if facts.filter.None? then 0 else if facts.publicBoard then 4 else 1
  }

  ghost function AutomodSize(facts: Facts): nat {
    if facts.automod.None? then 0 else 2 * |KnownAmong(facts.automod.value)|
  }

  /** From index n on: the flag, and on a public board the review post with its board. */
  ghost predicate FilterAt(ts: int, facts: Facts, events: seq<EventRecord>, n: nat) {
    && n + FilterSize(facts) <= |events|
    && (facts.filter.Some? ==> Tells(events[n], ts, facts.filter.value.flag))
    && (facts.filter.Some? && facts.publicBoard ==>
          && Tells(events[n + 1], ts, facts.filter.value.board) && Tells(events[n + 2], ts, facts.filter.value.thread)
          && Tells(events[n + 3], ts, facts.filter.value.post))
  }

  ghost predicate PairAt(ts: int, action: Action, events: seq<EventRecord>, at: int) {
    && action.Known? && 0 <= at && at + 1 < |events|
    && Tells(events[at], ts, action.event) && Tells(events[at + 1], ts, action.audit)
  }

  /** From index n on: each known action's event and then its audit entry. */
  ghost predicate AutomodAt(ts: int, facts: Facts, events: seq<EventRecord>, n: nat) {
    && n + AutomodSize(facts) <= |events|
    && (facts.automod.Some? ==>
          forall i :: 0 <= i < |facts.automod.value| && facts.automod.value[i].Known? ==>
            PairAt(ts, facts.automod.value[i], events, n + 2 * |KnownAmong(facts.automod.value[..i])|))
  }

  lemma FilterPlaced(r: C.CommandRecord, ts: int, facts: Facts, first: seq<EventRecord>, more: seq<EventRecord>)
    ensures
      var filter := ContentFilterEvents(r, ts, facts, |first|);
      |filter| == FilterSize(facts) && FilterAt(ts, facts, first + filter + more, |first|)
  {
    hide ContentFilterEvents, Tells;
    var n, filter := |first|, ContentFilterEvents(r, ts, facts, |first|);
    FilterLayout(r, ts, facts, n);
    var events := first + filter + more;
    assert forall k :: 0 <= k < |filter| ==> events[n + k] == filter[k];
  }

  lemma AutomodPlaced(r: C.CommandRecord, ts: int, facts: Facts, first: seq<EventRecord>, more: seq<EventRecord>)
    ensures
      var automod := AutomodOf(r, ts, facts, |first|);
      |automod| == AutomodSize(facts) && AutomodAt(ts, facts, first + automod + more, |first|)
  {
    hide ActionEvents, KnownActions, Tells, KnownAmong;
    if facts.automod.Some? {
      var n, actions, automod := |first|, facts.automod.value, AutomodOf(r, ts, facts, |first|);
      ActionsLength(r, ts, actions, n);
      KnownCount(actions);
      var events := first + automod + more;
      forall i | 0 <= i < |actions| && actions[i].Known?
        ensures PairAt(ts, actions[i], events, n + 2 * |KnownAmong(actions[..i])|)
      {
        KnownCount(actions[..i]);
        ActionsLayout(r, ts, actions, n, i);
        var at := 2 * KnownActions(actions[..i]);
        assert events[n + at] == automod[at] && events[n + at + 1] == automod[at + 1];
      }
    }
  }

  lemma ReviewedLayout(r: C.CommandRecord, ts: int, first: seq<EventRecord>, facts: Facts, more: seq<EventRecord>)
    ensures
      var events, n := Reviewed(r, ts, first, facts) + more, |first|;
      && first <= events && FilterAt(ts, facts, events, n) && AutomodAt(ts, facts, events, n + FilterSize(facts))
      && |events| == n + FilterSize(facts) + AutomodSize(facts) + |more|
  {
    hide ContentFilterEvents, AutomodOf, FilterAt, AutomodAt;
    var filter := ContentFilterEvents(r, ts, facts, |first|);
    var automod := AutomodOf(r, ts, facts, |first + filter|);
    FilterPlaced(r, ts, facts, first, automod + more);
    AutomodPlaced(r, ts, facts, first + filter, more);
    var events := Reviewed(r, ts, first, facts) + more;
    assert events == first + filter + (automod + more);
    assert events == (first + filter) + automod + more;
  }

  /** A create-thread decision: the thread, its first post, then the review. */
  lemma CreateThreadLayout(r: C.CommandRecord, ts: int, thread: Body, post: Body, facts: Facts)
    ensures
      var events := CreateThreadEvents(r, ts, thread, post, facts);
      && |events| == 2 + FilterSize(facts) + AutomodSize(facts) && Tells(events[0], ts, thread)
      && Tells(events[1], ts, post)
      && FilterAt(ts, facts, events, 2) && AutomodAt(ts, facts, events, 2 + FilterSize(facts))
  {
    hide Reviewed, FilterAt, AutomodAt, FilterSize, AutomodSize;
    var first := [NativeEvent(r, ts, 0, thread), NativeEvent(r, ts, 1, post)];
    ReviewedLayout(r, ts, first, facts, []);
    var events := Reviewed(r, ts, first, facts);
    assert events + [] == events;
    assert events[0] == first[0] && events[1] == first[1];
  }

  /** An append-post decision: the post, then the review, and the mail-back event last. */
  lemma AppendPostLayout(r: C.CommandRecord, ts: int, post: Body, facts: Facts)
    ensures
      var events := AppendPostEvents(r, ts, post, facts);
      && |events| == 1 + FilterSize(facts) + AutomodSize(facts) + (if facts.mailBack.None? then 0 else 1)
      && Tells(events[0], ts, post) && FilterAt(ts, facts, events, 1)
      && AutomodAt(ts, facts, events, 1 + FilterSize(facts))
      && (facts.mailBack.Some? ==> Tells(events[|events| - 1], ts, facts.mailBack.value))
  {
    hide Reviewed, FilterAt, AutomodAt, FilterSize, AutomodSize;
    var first := [NativeEvent(r, ts, 0, post)];
    var reviewed := Reviewed(r, ts, first, facts);
    var more := if facts.mailBack.None? then [] else [NativeEvent(r, ts, |reviewed|, facts.mailBack.value)];
    ReviewedLayout(r, ts, first, facts, more);
    var events := reviewed + more;
    assert facts.mailBack.None? ==> events == reviewed;
    assert events[0] == first[0];
  }

  /** So what the decider answers to a record, and at what time: every event carries the
      time the record was enqueued, or the clock's if it has none. */
  lemma NativeLayout(rules: C.CommandRecord -> Plan, now: int, r: C.CommandRecord)
    ensures
      var d, ts := NativeDecide(rules, now)(r), if r.enqueuedAt > 0 then r.enqueuedAt else now;
      match rules(r)
      case CreateThread(thread, post, facts) =>
        && d.Applied? && |d.events| == 2 + FilterSize(facts) + AutomodSize(facts)
        && Tells(d.events[0], ts, thread) && Tells(d.events[1], ts, post)
        && FilterAt(ts, facts, d.events, 2) && AutomodAt(ts, facts, d.events, 2 + FilterSize(facts))
      case AppendPost(post, facts) =>
        && d.Applied? && |d.events| == 1 + FilterSize(facts) + AutomodSize(facts) + (if facts.mailBack.None? then 0 else 1)
        && Tells(d.events[0], ts, post)
        && FilterAt(ts, facts, d.events, 1) && AutomodAt(ts, facts, d.events, 1 + FilterSize(facts))
        && (facts.mailBack.Some? ==> Tells(d.events[|d.events| - 1], ts, facts.mailBack.value))
      case Refuse => d.Terminal?
  {
    hide Tells, FilterAt, AutomodAt, FilterSize, AutomodSize, CreateThreadEvents, AppendPostEvents;
    var ts := Timestamp(r, now);
    match rules(r) {
      case CreateThread(thread, post, facts) => CreateThreadLayout(r, ts, thread, post, facts);
      case AppendPost(post, facts) => AppendPostLayout(r, ts, post, facts);
      case Refuse =>
    }
  }

  // ---- One after another --------------------------------------------------------------------------

  function BodyOf(e: EventRecord): Body {
    Body(e.kind, e.scopes, e.payload, e.partition)
  }

  /** What the hot projection reads out of these events; the rest is not its concern. */
  function HotOf(read: Body -> Option<HotEvent>, events: seq<EventRecord>): seq<HotEvent> {
    if events == [] then []
    else
      var last := read(BodyOf(events[|events| - 1]));
      HotOf(read, events[..|events| - 1]) + if last.None? then [] else [last.value]
  }

  /** The bodies of a decision read as what they are: a thread and its post, the review
      thread and its post, and nothing else hot. */
  ghost predicate Reads(read: Body -> Option<HotEvent>, thread: Body, post: Body, facts: Facts) {
    && read(thread).Some? && read(thread).value.NewThread?
    && read(post).Some? && read(post).value.NewPost? && read(post).value.thread == read(thread).value.id
    && (facts.filter.Some? ==>
          var f := facts.filter.value;
          && read(f.flag).None? && read(f.board).None?
          && read(f.thread).Some? && read(f.thread).value.NewThread? && read(f.thread).value.id != read(thread).value.id
          && read(f.post).Some? && read(f.post).value.NewPost? && read(f.post).value.thread == read(f.thread).value.id)
    && (facts.automod.Some? ==>
          forall i :: 0 <= i < |facts.automod.value| && facts.automod.value[i].Known? ==>
            read(facts.automod.value[i].event).None? && read(facts.automod.value[i].audit).None?)
  }

  lemma {:induction false} HotConcat(read: Body -> Option<HotEvent>, a: seq<EventRecord>, b: seq<EventRecord>)
    ensures HotOf(read, a + b) == HotOf(read, a) + HotOf(read, b)
  {
    if b == [] {
      assert a + b == a;
    } else {
      var n := |b| - 1;
      assert (a + b)[..|a + b| - 1] == a + b[..n];
      HotConcat(read, a, b[..n]);
    }
  }

  lemma HotOne(read: Body -> Option<HotEvent>, r: C.CommandRecord, ts: int, ordinal: int, body: Body)
    ensures HotOf(read, [NativeEvent(r, ts, ordinal, body)]) == if read(body).None? then [] else [read(body).value]
  {
    var e := NativeEvent(r, ts, ordinal, body);
    assert [e][..0] == [] && BodyOf(e) == body;
  }

  lemma HotTwo(read: Body -> Option<HotEvent>, r: C.CommandRecord, ts: int, ordinal: int, a: Body, b: Body)
    ensures HotOf(read, [NativeEvent(r, ts, ordinal, a), NativeEvent(r, ts, ordinal + 1, b)]) ==
            (if read(a).None? then [] else [read(a).value]) + if read(b).None? then [] else [read(b).value]
  {
    HotOne(read, r, ts, ordinal, a);
    HotOne(read, r, ts, ordinal + 1, b);
    HotConcat(read, [NativeEvent(r, ts, ordinal, a)], [NativeEvent(r, ts, ordinal + 1, b)]);
    assert [NativeEvent(r, ts, ordinal, a)] + [NativeEvent(r, ts, ordinal + 1, b)] ==
           [NativeEvent(r, ts, ordinal, a), NativeEvent(r, ts, ordinal + 1, b)];
  }

  lemma {:induction false} HotActions(read: Body -> Option<HotEvent>, r: C.CommandRecord, ts: int, actions: seq<Action>, start: int)
    requires forall i :: 0 <= i < |actions| && actions[i].Known? ==>
              read(actions[i].event).None? && read(actions[i].audit).None?
    ensures HotOf(read, ActionEvents(r, ts, actions, start)) == []
  {
    hide NativeEvent;
    if actions != [] {
      var n := |actions| - 1;
      HotActions(read, r, ts, actions[..n], start);
      var init := ActionEvents(r, ts, actions[..n], start);
      if actions[n].Known? {
        var idx := start + |init|;
        HotTwo(read, r, ts, idx, actions[n].event, actions[n].audit);
        HotConcat(read, init, [NativeEvent(r, ts, idx, actions[n].event),
                               NativeEvent(r, ts, idx + 1, actions[n].audit)]);
      }
    }
  }

  lemma HotFilter(read: Body -> Option<HotEvent>, r: C.CommandRecord, ts: int, facts: Facts, start: int, thread: Body, post: Body)
    requires Reads(read, thread, post, facts)
    ensures HotOf(read, ContentFilterEvents(r, ts, facts, start)) ==
            if facts.filter.None? || !facts.publicBoard then []
            else [read(facts.filter.value.thread).value, read(facts.filter.value.post).value]
  {
    hide NativeEvent, HotOf;
    if facts.filter.Some? {
      var f := facts.filter.value;
      HotOne(read, r, ts, start, f.flag);
      if facts.publicBoard {
        var flag, board := [NativeEvent(r, ts, start, f.flag)], [NativeEvent(r, ts, start + 1, f.board)];
        var pair := [NativeEvent(r, ts, start + 2, f.thread), NativeEvent(r, ts, start + 3, f.post)];
        HotOne(read, r, ts, start + 1, f.board);
        HotTwo(read, r, ts, start + 2, f.thread, f.post);
        HotConcat(read, board, pair);
        HotConcat(read, flag, board + pair);
        assert ContentFilterEvents(r, ts, facts, start) == flag + (board + pair);
      }
    } else {
      HotNone(read);
    }
  }

  lemma HotNone(read: Body -> Option<HotEvent>)
    ensures HotOf(read, []) == []
  {
  }

  /** The events of a create-thread decision come with every thread before its posts, so
      the row-by-row path takes whatever the batch takes. */
  lemma CreateThreadIsThreadsFirst(read: Body -> Option<HotEvent>, r: C.CommandRecord, ts: int, thread: Body,
                                   post: Body, facts: Facts)
    requires Reads(read, thread, post, facts)
    ensures
      var hot := HotOf(read, CreateThreadEvents(r, ts, thread, post, facts));
      && |hot| >= 2 && hot[0] == read(thread).value && hot[1] == read(post).value && ThreadsFirst(hot)
  {
    hide NativeEvent, HotOf, ContentFilterEvents, ActionEvents;
    var first := [NativeEvent(r, ts, 0, thread), NativeEvent(r, ts, 1, post)];
    HotTwo(read, r, ts, 0, thread, post);
    var filter := ContentFilterEvents(r, ts, facts, 2);
    HotFilter(read, r, ts, facts, 2, thread, post);
    HotConcat(read, first, filter);
    var automod := AutomodOf(r, ts, facts, |first + filter|);
    if facts.automod.Some? {
      HotActions(read, r, ts, facts.automod.value, |first + filter|);
    } else {
      HotNone(read);
    }
    HotConcat(read, first + filter, automod);
  }
}
