/** The hot path of the materializer: all threads of a batch, then all posts, then
    one aggregated update per thread, against applying one event at a time.  A post
    needs the row of its thread: `posts.thread` references `threads`. */
module HotProjection {
  import opened LogModel

  datatype HotEvent =
    | NewThread(id: string, scalar: int, ts: int)
    | NewPost(id: string, thread: string, scalar: int, ts: int)

  datatype ThreadRow = ThreadRow(postCount: int, lastSeq: int, updatedAt: int)

  datatype PostRow = PostRow(thread: string, scalar: int, ts: int)

  datatype Tables = Tables(threads: map<string, ThreadRow>, posts: map<string, PostRow>)

  // ---- One event at a time --------------------------------------------------------------

  function ApplyOne(t: Tables, e: HotEvent): Result<Tables> {
    match e
    case NewThread(id, scalar, ts) =>
      if id in t.threads then Err(ApplyFailure)
      else Ok(t.(threads := t.threads[id := ThreadRow(0, scalar, ts)]))
    case NewPost(id, thread, scalar, ts) =>
      if id in t.posts || thread !in t.threads then Err(ApplyFailure)
      else
        Ok(Tables(t.threads[thread := ThreadRow(t.threads[thread].postCount + 1, scalar, ts)],
                  t.posts[id := PostRow(thread, scalar, ts)]))
  }

  function ApplyEach(t: Tables, events: seq<HotEvent>): (r: Result<Tables>)
    ensures r.Err? ==> r.error == ApplyFailure
  {
    if events == [] then Ok(t)
    else
      var init := ApplyEach(t, events[..|events| - 1]);
      if init.Err? then init else ApplyOne(init.value, events[|events| - 1])
  }

  // ---- The batch --------------------------------------------------------------------------

  datatype Meta = Meta(count: int, lastSeq: int, updatedAt: int)

  function ThreadsOf(events: seq<HotEvent>): (r: seq<HotEvent>)
    ensures forall i :: 0 <= i < |r| ==> r[i].NewThread?
  {
    if events == [] then []
    else ThreadsOf(events[..|events| - 1]) + if events[|events| - 1].NewThread? then [events[|events| - 1]] else []
  }

  function PostsOf(events: seq<HotEvent>): (r: seq<HotEvent>)
    ensures forall i :: 0 <= i < |r| ==> r[i].NewPost?
  {
    if events == [] then []
    else PostsOf(events[..|events| - 1]) + if events[|events| - 1].NewPost? then [events[|events| - 1]] else []
  }

  /** INSERT INTO threads, one statement: a clash fails all of it. */
  function InsertThreads(rows: map<string, ThreadRow>, threads: seq<HotEvent>): (r: Result<map<string, ThreadRow>>)
    requires forall i :: 0 <= i < |threads| ==> threads[i].NewThread?
    ensures r.Err? ==> r.error == ApplyFailure
  {
    if threads == [] then Ok(rows)
    else
      var init, e := InsertThreads(rows, threads[..|threads| - 1]), threads[|threads| - 1];
      if init.Err? then init
      else if e.id in init.value then Err(ApplyFailure)
      else Ok(init.value[e.id := ThreadRow(0, e.scalar, e.ts)])
  }

  /** INSERT INTO posts, one statement: a clash or a missing thread fails all of it. */
  function InsertPosts(threads: set<string>, rows: map<string, PostRow>, posts: seq<HotEvent>): (r: Result<map<string, PostRow>>)
    requires forall i :: 0 <= i < |posts| ==> posts[i].NewPost?
    ensures r.Err? ==> r.error == ApplyFailure
  {
    if posts == [] then Ok(rows)
    else
      var init, e := InsertPosts(threads, rows, posts[..|posts| - 1]), posts[|posts| - 1];
      if init.Err? then init
      else if e.id in init.value || e.thread !in threads then Err(ApplyFailure)
      else Ok(init.value[e.id := PostRow(e.thread, e.scalar, e.ts)])
  }

  function MetaOf(byThread: map<string, Meta>, thread: string): Meta {
    if thread in byThread then byThread[thread] else Meta(0, 0, 0)
  }

  function Counted(m: Meta, e: HotEvent): Meta {
    if e.scalar >= m.lastSeq then Meta(m.count + 1, e.scalar, e.ts) else m.(count := m.count + 1)
  }

  function ByThread(posts: seq<HotEvent>): map<string, Meta>
    requires forall i :: 0 <= i < |posts| ==> posts[i].NewPost?
  {
    if posts == [] then map[]
    else
      var rest, e := ByThread(posts[..|posts| - 1]), posts[|posts| - 1];
      rest[e.thread := Counted(MetaOf(rest, e.thread), e)]
  }

  /** UPDATE threads ... FROM (VALUES ...). */
  function UpdateMeta(rows: map<string, ThreadRow>, byThread: map<string, Meta>): map<string, ThreadRow> {
    map id | id in rows ::
      if id in byThread then ThreadRow(rows[id].postCount + byThread[id].count, byThread[id].lastSeq,
                                       byThread[id].updatedAt)
      else rows[id]
  }

  /** The three statements, given what was aggregated per thread. */
  function Stored(t: Tables, events: seq<HotEvent>, byThread: map<string, Meta>): (r: Result<Tables>)
    ensures r.Err? ==> r.error == ApplyFailure
  {
    var threads := InsertThreads(t.threads, ThreadsOf(events));
    if threads.Err? then Err(threads.error)
    else
      var posts := InsertPosts(threads.value.Keys, t.posts, PostsOf(events));
      if posts.Err? then Err(posts.error)
      else Ok(Tables(UpdateMeta(threads.value, byThread), posts.value))
  }

  function ApplyBatch(t: Tables, events: seq<HotEvent>): Result<Tables> {
    Stored(t, events, ByThread(PostsOf(events)))
  }

  method Aggregate(posts: seq<HotEvent>) returns (byThread: map<string, Meta>, order: seq<string>)
    requires forall i :: 0 <= i < |posts| ==> posts[i].NewPost?
    ensures byThread == ByThread(posts)
    ensures (forall id :: id in order <==> id in byThread) && forall i, j :: 0 <= i < j < |order| ==>
              order[i] != order[j]
  {
    byThread, order := map[], [];
    var i := 0;
    while i < |posts|
      invariant 0 <= i <= |posts| && byThread == ByThread(posts[..i])
      invariant forall id :: id in order <==> id in byThread
      invariant forall a, b :: 0 <= a < b < |order| ==> order[a] != order[b]
    {
      var post := posts[i];
      assert posts[..i + 1][..i] == posts[..i];
      var meta := MetaOf(byThread, post.thread);
      if post.thread !in byThread {
        order := order + [post.thread];
      }
      meta := meta.(count := meta.count + 1);
      if post.scalar >= meta.lastSeq {
        meta := meta.(lastSeq := post.scalar, updatedAt := post.ts);
      }
      byThread := byThread[post.thread := meta];
      i := i + 1;
    }
    assert posts[..i] == posts;
  }

  method MaterializeBatch(t: Tables, events: seq<HotEvent>) returns (r: Result<Tables>)
    ensures r == ApplyBatch(t, events)
  {
    var threads: seq<HotEvent>, posts: seq<HotEvent> := [], [];
    var i := 0;
    while i < |events|
      invariant 0 <= i <= |events| && threads == ThreadsOf(events[..i]) && posts == PostsOf(events[..i])
    {
      assert events[..i + 1][..i] == events[..i];
      match events[i] {
        case NewThread(_, _, _) => threads := threads + [events[i]];
        case NewPost(_, _, _, _) => posts := posts + [events[i]];
      }
      i := i + 1;
    }
    assert events[..i] == events;
    var inserted := InsertThreads(t.threads, threads);
    if inserted.Err? {
      return Err(inserted.error);
    }
    var stored := InsertPosts(inserted.value.Keys, t.posts, posts);
    if stored.Err? {
      return Err(stored.error);
    }
    var byThread, order := Aggregate(posts);
    r := Ok(Tables(UpdateMeta(inserted.value, byThread), stored.value));
  }

  // ---- One at a time, as a batch -------------------------------------------------------------

  predicate PostBefore(post: HotEvent, thread: HotEvent) {
    post.NewPost? && thread.NewThread? && post.thread == thread.id
  }

  /** No post comes before the event that creates its thread. */
  ghost predicate ThreadsFirst(events: seq<HotEvent>) {
    forall i, j :: 0 <= i < j < |events| ==> !PostBefore(events[i], events[j])
  }

  /** The aggregate that takes the last post of a thread, whatever its sequence. */
  function Latest(m: Meta, e: HotEvent): Meta {
    Meta(m.count + 1, e.scalar, e.ts)
  }

  function ByLast(posts: seq<HotEvent>): map<string, Meta>
    requires forall i :: 0 <= i < |posts| ==> posts[i].NewPost?
  {
    if posts == [] then map[]
    else
      var rest, e := ByLast(posts[..|posts| - 1]), posts[|posts| - 1];
      rest[e.thread := Latest(MetaOf(rest, e.thread), e)]
  }

  predicate PostTo(e: HotEvent, id: string) {
    e.NewPost? && e.thread == id
  }

  lemma PostsSnoc(events: seq<HotEvent>)
    requires events != []
    ensures
      var n := |events| - 1;
      if events[n].NewPost? then
        && PostsOf(events) == PostsOf(events[..n]) + [events[n]] && ThreadsOf(events) == ThreadsOf(events[..n])
      else
        PostsOf(events) == PostsOf(events[..n]) && ThreadsOf(events) == ThreadsOf(events[..n]) + [events[n]]
  {
    var n := |events| - 1;
    assert PostsOf(events[..n]) + [] == PostsOf(events[..n]) && ThreadsOf(events[..n]) + [] == ThreadsOf(events[..n]);
  }

  lemma MetaSnoc(posts: seq<HotEvent>, e: HotEvent)
    requires e.NewPost? && forall i :: 0 <= i < |posts| ==> posts[i].NewPost?
    ensures ByThread(posts + [e]) == ByThread(posts)[e.thread := Counted(MetaOf(ByThread(posts), e.thread), e)]
    ensures ByLast(posts + [e]) == ByLast(posts)[e.thread := Latest(MetaOf(ByLast(posts), e.thread), e)]
  {
    assert (posts + [e])[..|posts|] == posts;
  }

  lemma {:induction false} Posted(events: seq<HotEvent>, id: string)
    ensures id in ByLast(PostsOf(events)) <==> exists i :: 0 <= i < |events| && PostTo(events[i], id)
    ensures id in ByThread(PostsOf(events)) <==> id in ByLast(PostsOf(events))
  {
    hide ByThread, ByLast, PostsOf, PostTo;
    if events != [] {
      var n := |events| - 1;
      var init := events[..n];
      Posted(init, id);
      PostsSnoc(events);
      PostToNew(events[n], id);
      if events[n].NewPost? {
        MetaSnoc(PostsOf(init), events[n]);
      }
      PostedSnoc(events, id);
    } else {
      NothingPosted();
    }
  }

  lemma PostToNew(e: HotEvent, id: string)
    ensures PostTo(e, id) <==> e.NewPost? && e.thread == id
  {
  }

  lemma PostedSnoc(events: seq<HotEvent>, id: string)
    requires events != []
    ensures
      var n := |events| - 1;
      (exists i :: 0 <= i < |events| && PostTo(events[i], id))
      <==> PostTo(events[n], id) || exists i :: 0 <= i < n && PostTo(events[..n][i], id)
  {
    hide PostTo;
    var n := |events| - 1;
    if i :| 0 <= i < n && PostTo(events[..n][i], id) {
      assert PostTo(events[i], id);
    }
    if i :| 0 <= i < |events| && PostTo(events[i], id) {
      if i < n {
        assert PostTo(events[..n][i], id);
      }
    }
  }

  lemma NothingPosted()
    ensures PostsOf([]) == [] && ByThread([]) == map[] && ByLast([]) == map[]
  {
  }

  lemma LastSnoc(t: Tables, events: seq<HotEvent>)
    requires events != [] && ThreadsFirst(events)
    ensures
      var n := |events| - 1;
      var init := Stored(t, events[..n], ByLast(PostsOf(events[..n])));
      Stored(t, events, ByLast(PostsOf(events))) == if init.Err? then init else ApplyOne(init.value, events[n])
  {
    hide Stored, ApplyOne, PostBefore;
    var n := |events| - 1;
    if events[n].NewThread? {
      LastThread(t, events[..n], events[n], events);
    } else {
      LastPost(t, events[..n], events[n], events);
    }
  }

  lemma LastThread(t: Tables, init: seq<HotEvent>, e: HotEvent, events: seq<HotEvent>)
    requires events != [] && init == events[..|events| - 1] && e == events[|events| - 1] && e.NewThread?
    requires ThreadsFirst(events)
    ensures
      var before := Stored(t, init, ByLast(PostsOf(init)));
      Stored(t, events, ByLast(PostsOf(events))) == if before.Err? then before else ApplyOne(before.value, e)
  {
    hide ByLast, UpdateMeta, InsertThreads, InsertPosts, ThreadsOf, PostsOf, Latest;
    PostsSnoc(events);
    var byLast := ByLast(PostsOf(init));
    ThreadsSnoc(t.threads, ThreadsOf(init), e);
    NoPostYet(init, e, events);
    if InsertThreads(t.threads, ThreadsOf(init)).Ok? {
      var rows := InsertThreads(t.threads, ThreadsOf(init)).value;
      UpdateKeys(rows, byLast);
      UpdateWithThread(rows, byLast, e);
      OtherThread(rows.Keys, t.posts, PostsOf(init), e.id);
      assert rows[e.id := ThreadRow(0, e.scalar, e.ts)].Keys == rows.Keys + {e.id};
    }
  }

  lemma NoPostYet(init: seq<HotEvent>, e: HotEvent, events: seq<HotEvent>)
    requires events != [] && init == events[..|events| - 1] && e == events[|events| - 1] && e.NewThread?
    requires ThreadsFirst(events)
    ensures e.id !in ByLast(PostsOf(init))
    ensures forall k :: 0 <= k < |PostsOf(init)| ==> PostsOf(init)[k].thread != e.id
  {
    hide ByLast, PostsOf;
    Posted(init, e.id);
    assert forall i :: 0 <= i < |init| ==> init[i] == events[i] && !PostBefore(events[i], events[|events| - 1]);
    NotPostedTo(init, e.id);
  }

  lemma LastPost(t: Tables, init: seq<HotEvent>, e: HotEvent, events: seq<HotEvent>)
    requires events != [] && init == events[..|events| - 1] && e == events[|events| - 1] && e.NewPost?
    ensures
      var before := Stored(t, init, ByLast(PostsOf(init)));
      Stored(t, events, ByLast(PostsOf(events))) == if before.Err? then before else ApplyOne(before.value, e)
  {
    hide ByLast, UpdateMeta, InsertThreads, InsertPosts, ThreadsOf, PostsOf, Latest;
    PostsSnoc(events);
    var byLast := ByLast(PostsOf(init));
    if InsertThreads(t.threads, ThreadsOf(init)).Ok? {
      var rows := InsertThreads(t.threads, ThreadsOf(init)).value;
      UpdateKeys(rows, byLast);
      MetaSnoc(PostsOf(init), e);
      UpdateWithPost(rows, byLast, e);
      PostsInsertSnoc(rows.Keys, t.posts, PostsOf(init), e);
    }
  }

  lemma ThreadsSnoc(rows: map<string, ThreadRow>, threads: seq<HotEvent>, e: HotEvent)
    requires forall i :: 0 <= i < |threads| ==> threads[i].NewThread?
    ensures e.NewThread? ==>
              var init := InsertThreads(rows, threads);
              InsertThreads(rows, threads + [e]) ==
              if init.Err? then init else if e.id in init.value then Err(ApplyFailure)
              else Ok(init.value[e.id := ThreadRow(0, e.scalar, e.ts)])
  {
    assert (threads + [e])[..|threads|] == threads;
  }

  lemma PostsInsertSnoc(threads: set<string>, rows: map<string, PostRow>, posts: seq<HotEvent>, e: HotEvent)
    requires e.NewPost? && forall i :: 0 <= i < |posts| ==> posts[i].NewPost?
    ensures
      var init := InsertPosts(threads, rows, posts);
      InsertPosts(threads, rows, posts + [e]) ==
      if init.Err? then init else if e.id in init.value || e.thread !in threads then Err(ApplyFailure)
      else Ok(init.value[e.id := PostRow(e.thread, e.scalar, e.ts)])
  {
    assert (posts + [e])[..|posts|] == posts;
  }

  /** A thread nobody posts to makes no difference to the posts. */
  lemma {:induction false} OtherThread(threads: set<string>, rows: map<string, PostRow>, posts: seq<HotEvent>, id: string)
    requires forall i :: 0 <= i < |posts| ==> posts[i].NewPost? && posts[i].thread != id
    ensures InsertPosts(threads + {id}, rows, posts) == InsertPosts(threads, rows, posts)
  {
    if posts != [] {
      OtherThread(threads, rows, posts[..|posts| - 1], id);
    }
  }

  lemma {:induction false} NotPostedTo(events: seq<HotEvent>, id: string)
    requires forall i :: 0 <= i < |events| && events[i].NewPost? ==> events[i].thread != id
    ensures forall k :: 0 <= k < |PostsOf(events)| ==> PostsOf(events)[k].thread != id
  {
    if events != [] {
      NotPostedTo(events[..|events| - 1], id);
    }
  }

  lemma UpdateKeys(rows: map<string, ThreadRow>, byThread: map<string, Meta>)
    ensures UpdateMeta(rows, byThread).Keys == rows.Keys
  {
  }

  lemma UpdateWithThread(rows: map<string, ThreadRow>, byThread: map<string, Meta>, e: HotEvent)
    requires e.NewThread? && e.id !in byThread
    ensures e.id in UpdateMeta(rows, byThread) <==> e.id in rows
    ensures UpdateMeta(rows[e.id := ThreadRow(0, e.scalar, e.ts)], byThread)
            == UpdateMeta(rows, byThread)[e.id := ThreadRow(0, e.scalar, e.ts)]
  {
  }

  lemma UpdateWithPost(rows: map<string, ThreadRow>, byThread: map<string, Meta>, e: HotEvent)
    requires e.NewPost?
    ensures
      var before := UpdateMeta(rows, byThread);
      UpdateMeta(rows, byThread[e.thread := Latest(MetaOf(byThread, e.thread), e)])
      == if e.thread !in before then before
         else before[e.thread := ThreadRow(before[e.thread].postCount + 1, e.scalar, e.ts)]
  {
  }

  /** One at a time is the batch that takes last posts, errors included. */
  lemma {:induction false} EachIsLast(t: Tables, events: seq<HotEvent>)
    requires ThreadsFirst(events)
    ensures ApplyEach(t, events) == Stored(t, events, ByLast(PostsOf(events)))
  {
    hide ApplyOne, UpdateMeta, ByLast;
    if events != [] {
      EachIsLast(t, events[..|events| - 1]);
      LastSnoc(t, events);
    } else {
      NothingPosted();
      NothingUpdated(t.threads);
    }
  }

  lemma NothingUpdated(rows: map<string, ThreadRow>)
    ensures UpdateMeta(rows, map[]) == rows
  {
  }

  /** Applied one at a time, a post before its thread fails. */
  lemma {:induction false} EachNeedsThreadsFirst(t: Tables, events: seq<HotEvent>)
    requires ApplyEach(t, events).Ok?
    ensures ThreadsFirst(events)
    ensures forall i :: 0 <= i < |events| && events[i].NewPost? ==>
              events[i].thread in ApplyEach(t, events).value.threads
  {
    hide PostBefore;
    if events != [] {
      var n := |events| - 1;
      EachNeedsThreadsFirst(t, events[..n]);
      forall i, j | 0 <= i < j < |events| ensures !PostBefore(events[i], events[j]) {
        assert events[i] == events[..n][i];
        if j < n {
          assert events[j] == events[..n][j];
        } else {
          NotBefore(events[i], events[n], ApplyEach(t, events[..n]).value);
        }
      }
    }
  }

  lemma NotBefore(post: HotEvent, e: HotEvent, t: Tables)
    requires ApplyOne(t, e).Ok? && (post.NewPost? ==> post.thread in t.threads)
    ensures !PostBefore(post, e)
  {
  }

  // ---- Highest sequence against last post -----------------------------------------------------

  ghost predicate LastPostTo(events: seq<HotEvent>, j: int, id: string) {
    && 0 <= j < |events| && PostTo(events[j], id)
    && forall k :: j < k < |events| ==> !PostTo(events[k], id)
  }

  /** The last post of every thread has the highest sequence among its posts. */
  ghost predicate LastIsLatest(events: seq<HotEvent>) {
    forall i, j, id :: 0 <= i < |events| && PostTo(events[i], id) && LastPostTo(events, j, id) ==>
      events[i].scalar <= events[j].scalar
  }

  ghost predicate Positive(events: seq<HotEvent>) {
    forall i :: 0 <= i < |events| ==> events[i].scalar > 0
  }

  /** The two aggregates of one thread: same count; the highest sequence, and the
      sequence of the last post. */
  ghost predicate Compared(events: seq<HotEvent>, id: string, top: Meta, last: Meta) {
    && top.count == last.count && 0 <= last.lastSeq <= top.lastSeq
    && (top.lastSeq == last.lastSeq ==> top == last)
    && (forall i :: 0 <= i < |events| && PostTo(events[i], id) ==> events[i].scalar <= top.lastSeq && last.lastSeq > 0)
    && (top.lastSeq == 0 || exists i :: 0 <= i < |events| && PostTo(events[i], id) && events[i].scalar == top.lastSeq)
    && (last.lastSeq == 0 || exists j :: LastPostTo(events, j, id) && events[j].scalar == last.lastSeq)
  }

  lemma ComparedStep(events: seq<HotEvent>, e: HotEvent, id: string, top: Meta, last: Meta)
    requires Compared(events, id, top, last) && e.scalar > 0
    ensures if PostTo(e, id) then Compared(events + [e], id, Counted(top, e),
                                           Latest(last, e)) else Compared(events + [e], id, top, last)
  {
    hide PostTo;
    var all := events + [e];
    assert forall i :: 0 <= i < |events| ==> all[i] == events[i];
    if top.lastSeq != 0 {
      var i :| 0 <= i < |events| && PostTo(events[i], id) && events[i].scalar == top.lastSeq;
      assert PostTo(all[i], id) && all[i].scalar == top.lastSeq;
    }
    if PostTo(e, id) {
      assert all[|events|] == e && LastPostTo(all, |events|, id);
    } else if last.lastSeq != 0 {
      var j :| LastPostTo(events, j, id) && events[j].scalar == last.lastSeq;
      assert LastPostTo(all, j, id);
    }
  }

  lemma {:induction false} AggregatesCompare(events: seq<HotEvent>, id: string)
    requires Positive(events)
    ensures Compared(events, id, MetaOf(ByThread(PostsOf(events)), id), MetaOf(ByLast(PostsOf(events)), id))
  {
    hide ByThread, ByLast, PostsOf, Compared, Counted, Latest, PostTo;
    if events != [] {
      var n := |events| - 1;
      var init, e := events[..n], events[n];
      AggregatesCompare(init, id);
      PostsSnoc(events);
      PostToNew(e, id);
      ComparedStep(init, e, id, MetaOf(ByThread(PostsOf(init)), id), MetaOf(ByLast(PostsOf(init)), id));
      assert init + [e] == events;
      if e.NewPost? {
        MetaSnoc(PostsOf(init), e);
      }
    } else {
      NothingPosted();
      NothingCompared(id);
    }
  }

  lemma NothingCompared(id: string)
    ensures Compared([], id, Meta(0, 0, 0), Meta(0, 0, 0))
  {
  }

  ghost predicate SameAggregates(events: seq<HotEvent>) {
    forall id :: id in ByThread(PostsOf(events)) ==>
      MetaOf(ByThread(PostsOf(events)), id) == MetaOf(ByLast(PostsOf(events)), id)
  }

  lemma LatestIsSame(events: seq<HotEvent>)
    requires Positive(events)
    ensures SameAggregates(events) <==> LastIsLatest(events)
  {
    hide ByThread, ByLast, PostsOf, PostTo, MetaOf;
    forall id ensures Compared(events, id, MetaOf(ByThread(PostsOf(events)), id), MetaOf(ByLast(PostsOf(events)), id)) {
      AggregatesCompare(events, id);
    }
    if LastIsLatest(events) {
      forall id | id in ByThread(PostsOf(events))
        ensures MetaOf(ByThread(PostsOf(events)), id) == MetaOf(ByLast(PostsOf(events)), id)
      {
        LatestAgrees(events, id, MetaOf(ByThread(PostsOf(events)), id), MetaOf(ByLast(PostsOf(events)), id));
      }
    }
    if SameAggregates(events) {
      forall i, j, id | 0 <= i < |events| && PostTo(events[i], id) && LastPostTo(events, j, id)
        ensures events[i].scalar <= events[j].scalar
      {
        Posted(events, id);
        OneLast(events, id, j, MetaOf(ByThread(PostsOf(events)), id), MetaOf(ByLast(PostsOf(events)), id));
      }
    }
  }

  lemma LatestAgrees(events: seq<HotEvent>, id: string, top: Meta, last: Meta)
    requires Compared(events, id, top, last) && LastIsLatest(events) && Positive(events)
    ensures top == last
  {
    hide PostTo;
    if top.lastSeq != 0 {
      var i :| 0 <= i < |events| && PostTo(events[i], id) && events[i].scalar == top.lastSeq;
      var j := TheLast(events, id, i);
      OneLast(events, id, j, top, last);
    }
  }

  lemma {:induction false} TheLast(events: seq<HotEvent>, id: string, i: nat) returns (j: nat)
    requires i < |events| && PostTo(events[i], id)
    ensures LastPostTo(events, j, id)
    decreases |events| - i
  {
    hide PostTo;
    if k :| i < k < |events| && PostTo(events[k], id) {
      j := TheLast(events, id, k);
    } else {
      j := i;
    }
  }

  /** There is one last post, so the last aggregate carries its sequence. */
  lemma OneLast(events: seq<HotEvent>, id: string, j: int, top: Meta, last: Meta)
    requires Compared(events, id, top, last) && LastPostTo(events, j, id) && Positive(events)
    ensures events[j].scalar == last.lastSeq
    ensures top == last ==> forall i :: 0 <= i < |events| && PostTo(events[i], id) ==>
              events[i].scalar <= events[j].scalar
  {
    hide PostTo;
    var k :| LastPostTo(events, k, id) && events[k].scalar == last.lastSeq;
    assert k == j;
  }

  // ---- Exactly when the batch is the same as one at a time ------------------------------------------

  lemma {:induction false} PostsHaveThreads(threads: set<string>, rows: map<string, PostRow>, posts: seq<HotEvent>, id: string)
    requires forall i :: 0 <= i < |posts| ==> posts[i].NewPost?
    requires InsertPosts(threads, rows, posts).Ok? && id in ByThread(posts)
    ensures id in threads
  {
    if posts != [] && posts[|posts| - 1].thread != id {
      PostsHaveThreads(threads, rows, posts[..|posts| - 1], id);
    }
  }

  lemma UpdateSame(rows: map<string, ThreadRow>, byThread: map<string, Meta>, byLast: map<string, Meta>)
    requires forall id :: id in byThread ==> id in rows
    requires forall id :: id in byThread <==> id in byLast
    requires forall id :: id in byThread ==> byThread[id].count == byLast[id].count
    ensures UpdateMeta(rows, byThread) == UpdateMeta(rows, byLast) <==> forall id :: id in byThread ==>
              byThread[id] == byLast[id]
  {
    var a, b := UpdateMeta(rows, byThread), UpdateMeta(rows, byLast);
    if a == b {
      forall id | id in byThread ensures byThread[id] == byLast[id] {
        assert a[id] == b[id];
      }
    }
  }

  /** A batch that succeeds agrees with the one that takes last posts exactly when the
      last posts are the latest. */
  lemma StoredSame(t: Tables, events: seq<HotEvent>)
    requires Positive(events) && ApplyBatch(t, events).Ok?
    ensures ApplyBatch(t, events) == Stored(t, events, ByLast(PostsOf(events))) <==> LastIsLatest(events)
  {
    hide ByThread, ByLast, PostsOf, UpdateMeta, InsertThreads, InsertPosts, ThreadsOf, Compared, LastIsLatest;
    var byThread, byLast := ByThread(PostsOf(events)), ByLast(PostsOf(events));
    var rows := InsertThreads(t.threads, ThreadsOf(events)).value;
    forall id ensures id in byThread <==> id in byLast {
      Posted(events, id);
    }
    forall id | id in byThread ensures id in rows && byThread[id].count == byLast[id].count {
      PostsHaveThreads(rows.Keys, t.posts, PostsOf(events), id);
      AggregatesCompare(events, id);
      SameCount(events, id, byThread[id], byLast[id]);
    }
    UpdateSame(rows, byThread, byLast);
    LatestIsSame(events);
  }

  lemma SameCount(events: seq<HotEvent>, id: string, top: Meta, last: Meta)
    requires Compared(events, id, top, last)
    ensures top.count == last.count
  {
  }

  lemma FailsAlike(t: Tables, events: seq<HotEvent>)
    ensures ApplyBatch(t, events).Ok? <==> Stored(t, events, ByLast(PostsOf(events))).Ok?
  {
    hide ByThread, ByLast, UpdateMeta;
  }

  /** Exactly, for any sequences: one at a time succeeds if and only if the batch does
      and threads come first; and a batch that succeeds agrees with one at a time if
      and only if threads come first and the last post of every thread has its
      highest sequence. */
  lemma BatchIsEachExactly(t: Tables, events: seq<HotEvent>)
    requires Positive(events)
    ensures ApplyEach(t, events).Ok? <==> ApplyBatch(t, events).Ok? && ThreadsFirst(events)
    ensures ApplyBatch(t, events).Ok? ==>
              (ApplyBatch(t, events) == ApplyEach(t, events) <==> ThreadsFirst(events) && LastIsLatest(events))
  {
    hide ApplyBatch, ApplyEach, Stored, LastIsLatest;
    FailsAlike(t, events);
    if ThreadsFirst(events) {
      EachIsLast(t, events);
    }
    if ApplyEach(t, events).Ok? {
      EachNeedsThreadsFirst(t, events);
    }
    if ApplyBatch(t, events).Ok? {
      StoredSame(t, events);
    }
  }

  /** The fast form refines the simple one, errors included. */
  lemma BatchIsEach(t: Tables, events: seq<HotEvent>)
    requires Positive(events) && ThreadsFirst(events) && LastIsLatest(events)
    ensures ApplyBatch(t, events) == ApplyEach(t, events)
  {
    hide ApplyEach, LastIsLatest, ByThread;
    BatchIsEachExactly(t, events);
  }

  /** Sequences never go back. */
  ghost predicate InOrder(events: seq<HotEvent>) {
    Positive(events) && forall i, j :: 0 <= i < j < |events| ==> events[i].scalar <= events[j].scalar
  }

  lemma InOrderIsLatest(events: seq<HotEvent>)
    requires InOrder(events)
    ensures LastIsLatest(events)
  {
    hide PostTo;
    forall i, j, id | 0 <= i < |events| && PostTo(events[i], id) && LastPostTo(events, j, id)
      ensures events[i].scalar <= events[j].scalar
    {
      assert i <= j;
    }
  }

  lemma {:induction false} EachConcat(t: Tables, a: seq<HotEvent>, b: seq<HotEvent>)
    ensures
      var r := ApplyEach(t, a);
      ApplyEach(t, a + b) == if r.Err? then r else ApplyEach(r.value, b)
  {
    hide ApplyOne;
    if b == [] {
      assert a + b == a;
    } else {
      var n := |b| - 1;
      assert (a + b)[..|a + b| - 1] == a + b[..n];
      EachConcat(t, a, b[..n]);
    }
  }

  /** Splitting a batch anywhere changes nothing: counts, last sequences, times,
      posts and errors are the same. */
  lemma SplitInvariance(t: Tables, a: seq<HotEvent>, b: seq<HotEvent>)
    requires InOrder(a + b) && ThreadsFirst(a + b)
    ensures
      var r := ApplyBatch(t, a);
      ApplyBatch(t, a + b) == if r.Err? then r else ApplyBatch(r.value, b)
  {
    hide ApplyBatch, ApplyEach, PostBefore, LastIsLatest;
    var all := a + b;
    assert forall i :: 0 <= i < |a| ==> a[i] == all[i];
    assert forall i :: 0 <= i < |b| ==> b[i] == all[|a| + i];
    InOrderIsLatest(all);
    InOrderIsLatest(a);
    InOrderIsLatest(b);
    BatchIsEach(t, all);
    BatchIsEach(t, a);
    EachConcat(t, a, b);
    if ApplyEach(t, a).Ok? {
      BatchIsEach(ApplyEach(t, a).value, b);
    }
  }

  // ---- At two inputs --------------------------------------------------------------------------------

  /** The batch stores a post that arrives before its thread, the row-by-row path
      refuses it. */
  lemma PostBeforeItsThread()
    ensures
      var none := Tables(map[], map[]);
      var events := [NewPost("p", "t", 1, 10), NewThread("t", 2, 20)];
      && ApplyEach(none, events) == Err(ApplyFailure)
      && ApplyBatch(none, events) == Ok(Tables(map["t" := ThreadRow(1, 1, 10)], map["p" := PostRow("t", 1, 10)]))
  {
    hide ApplyEach, ApplyBatch;
    var post, thread := NewPost("p", "t", 1, 10), NewThread("t", 2, 20);
    EachRefuses(post, thread);
    BatchStores(post, thread);
  }

  lemma EachRefuses(post: HotEvent, thread: HotEvent)
    requires post.NewPost?
    ensures ApplyEach(Tables(map[], map[]), [post, thread]) == Err(ApplyFailure)
  {
    assert [post, thread][..1] == [post] && [post][..0] == [];
    assert ApplyEach(Tables(map[], map[]), [post]) == Err(ApplyFailure);
  }

  lemma BatchStores(post: HotEvent, thread: HotEvent)
    requires post.NewPost? && thread.NewThread? && post.thread == thread.id && post.scalar > 0
    ensures ApplyBatch(Tables(map[], map[]), [post, thread]) ==
            Ok(Tables(map[thread.id := ThreadRow(1, post.scalar, post.ts)],
                      map[post.id := PostRow(thread.id, post.scalar, post.ts)]))
  {
    hide InsertPosts, InsertThreads, ByThread, UpdateMeta;
    var events := [post, thread];
    assert events[..1] == [post] && [post][..0] == [];
    assert ThreadsOf([post]) == [] && PostsOf([post]) == [post];
    assert ThreadsOf(events) == [thread] && PostsOf(events) == [post];
    OneInserted(post, thread);
  }

  lemma OneInserted(post: HotEvent, thread: HotEvent)
    requires post.NewPost? && thread.NewThread? && post.thread == thread.id && post.scalar > 0
    ensures InsertThreads(map[], [thread]) == Ok(map[thread.id := ThreadRow(0, thread.scalar, thread.ts)])
    ensures map[thread.id := ThreadRow(0, thread.scalar, thread.ts)].Keys == {thread.id}
    ensures InsertPosts({thread.id}, map[], [post]) == Ok(map[post.id := PostRow(thread.id, post.scalar, post.ts)])
    ensures UpdateMeta(map[thread.id := ThreadRow(0, thread.scalar, thread.ts)], ByThread([post]))
            == map[thread.id := ThreadRow(1, post.scalar, post.ts)]
  {
    assert [thread][..0] == [] && [post][..0] == [];
    assert InsertThreads(map[], [thread][..0]) == Ok(map[]);
    assert InsertPosts({thread.id}, map[], [post][..0]) == Ok(map[]);
    assert ByThread([post]) == map[thread.id := Meta(1, post.scalar, post.ts)];
  }

  /** A thread starts without posts, at its own sequence and time; its first post counts one
      and brings the thread to its own. */
  lemma ThreadAlone()
    ensures
      var none, t, p := Tables(map[], map[]), NewThread("t", 1, 10), NewPost("p", "t", 5, 50);
      && ApplyEach(none, [t]) == Ok(Tables(map["t" := ThreadRow(0, 1, 10)], map[]))
      && ApplyEach(none, [t, p]) == Ok(Tables(map["t" := ThreadRow(1, 5, 50)], map["p" := PostRow("t", 5, 50)]))
  {
    var none, t, p := Tables(map[], map[]), NewThread("t", 1, 10), NewPost("p", "t", 5, 50);
    assert [t][..0] == [] && [t, p][..1] == [t];
    assert ApplyEach(none, []) == Ok(none);
    assert ApplyEach(none, [t]) == ApplyOne(none, t);
    var one := Tables(map["t" := ThreadRow(0, 1, 10)], map[]);
    assert ApplyEach(none, [t]) == Ok(one);
    assert ApplyEach(none, [t, p]) == ApplyOne(one, p);
    assert one.threads["t" := ThreadRow(1, 5, 50)] == map["t" := ThreadRow(1, 5, 50)];
    assert one.posts["p" := PostRow("t", 5, 50)] == map["p" := PostRow("t", 5, 50)];
  }

  /** Threads come first and both succeed, but the sequence goes back: one at a time
      ends with the sequence of the last post, the batch with the highest. */
  lemma SequenceGoesBack()
    ensures
      var none := Tables(map[], map[]);
      var events := [NewThread("t", 1, 10), NewPost("p", "t", 5, 50), NewPost("q", "t", 3, 30)];
      var posts := map["p" := PostRow("t", 5, 50), "q" := PostRow("t", 3, 30)];
      && ThreadsFirst(events)
      && ApplyEach(none, events) == Ok(Tables(map["t" := ThreadRow(2, 3, 30)], posts))
      && ApplyBatch(none, events) == Ok(Tables(map["t" := ThreadRow(2, 5, 50)], posts))
  {
    hide InsertThreads, InsertPosts, ByThread, ByLast, UpdateMeta, ThreadsOf, PostsOf, ApplyEach;
    var t, p, q := NewThread("t", 1, 10), NewPost("p", "t", 5, 50), NewPost("q", "t", 3, 30);
    var events := [t, p, q];
    BackParts(t, p, q);
    BackRows(t, p, q);
    EachIsLast(Tables(map[], map[]), events);
  }

  lemma BackParts(t: HotEvent, p: HotEvent, q: HotEvent)
    requires t.NewThread? && p.NewPost? && q.NewPost?
    ensures ThreadsOf([t, p, q]) == [t] && PostsOf([t, p, q]) == [p, q]
  {
    var events := [t, p, q];
    assert events[..2] == [t, p] && [t, p][..1] == [t] && [t][..0] == [];
    assert ThreadsOf([t]) == [t] && PostsOf([t]) == [];
    assert ThreadsOf([t, p]) == [t] && PostsOf([t, p]) == [p];
  }

  lemma BackRows(t: HotEvent, p: HotEvent, q: HotEvent)
    requires t == NewThread("t", 1, 10) && p == NewPost("p", "t", 5, 50) && q == NewPost("q", "t", 3, 30)
    ensures
      var rows := map["t" := ThreadRow(0, 1, 10)];
      && InsertThreads(map[], [t]) == Ok(rows)
      && InsertPosts(rows.Keys, map[], [p, q]) == Ok(map["p" := PostRow("t", 5, 50), "q" := PostRow("t", 3, 30)])
      && UpdateMeta(rows, ByThread([p, q])) == map["t" := ThreadRow(2, 5, 50)]
      && UpdateMeta(rows, ByLast([p, q])) == map["t" := ThreadRow(2, 3, 30)]
  {
    var rows := map["t" := ThreadRow(0, 1, 10)];
    assert [t][..0] == [] && [p][..0] == [] && [p, q][..1] == [p];
    assert InsertThreads(map[], [t][..0]) == Ok(map[]);
    assert InsertPosts(rows.Keys, map[], [p][..0]) == Ok(map[]);
    assert InsertPosts(rows.Keys, map[], [p]) == Ok(map["p" := PostRow("t", 5, 50)]);
    assert ByThread([p]) == map["t" := Meta(1, 5, 50)] && ByLast([p]) == map["t" := Meta(1, 5, 50)];
    assert ByThread([p, q]) == map["t" := Meta(2, 5, 50)] && ByLast([p, q]) == map["t" := Meta(2, 3, 30)];
  }
}
