/** The vocabulary shared by the command log and the event log: partitions, the
    physical messages of a partitioned broker log, and reading one partition of
    a stream. */
module LogModel {

  datatype Option<+T> = None | Some(value: T)

  datatype Result<+T> = Ok(value: T) | Err(error: Failure)

  /** The error returns of the write path, one constructor per reason. */
  datatype Failure =
    | Cancelled
    | InvalidCommand
    | BeyondTail
    | MissingEventId
    | MissingTimestamp
    | DuplicateElsewhere
    | DuplicateContent
    | DuplicateInTransaction
    | OffsetNotNext
    | Unencodable
    | PostCommitCheck
    | MissingEnqueueTime
    | DuplicateReceipt
    | OffsetGap
    | OwnershipFailure
    | ReceiptFailure
    | CommitFailure
    | NotCommitted
    | WrongPartition
    | ApplyFailure
    | PartitionLimit
    | DecisionFailure

  const GLOBAL := "global"

  /** The write-ordering key of both logs. */
  datatype Partition = Partition(kind: string, key: string) {
    function Normalize(): Partition {
      Partition(if kind == "" then GLOBAL else kind, if key == "" then GLOBAL else key)
    }

    predicate Normal() {
      kind != "" && key != ""
    }
  }

  /** A broker message: logical partition and offset, the physical stream
      sequence, and the record that its data decodes to. */
  datatype Message<+R> = Message(partition: Partition, offset: int, streamSeq: int, data: R)

  /** Go's `m[key]` on a map of offsets: absent keys read as zero. */
  function OffsetOf(offsets: map<Partition, int>, p: Partition): int {
    if p in offsets then offsets[p] else 0
  }

  function Greater(a: int, b: int): int {
    if a > b then a else b
  }

  const DEFAULT_PAGE := 100

  /** A caller's limit, or the default. */
  function PageSize(limit: int): (n: nat)
    ensures n > 0 && (limit > 0 ==> n == limit) && (limit <= 0 ==> n == 100)
  {
    if limit <= 0 then DEFAULT_PAGE else limit
  }

  /** An empty field stands for the global partition's, and nothing else changes. */
  lemma NormalizeFills(p: Partition)
    ensures p.Normal() ==> p.Normalize() == p
    ensures Partition("", p.key).Normalize().kind == "global" && Partition(p.kind, "").Normalize().key == "global"
    ensures p.Normalize().Normal() && (p.kind != "" ==> p.Normalize().kind == p.kind)
    ensures p.key != "" ==> p.Normalize().key == p.key
  {
  }

  function Limit<T>(s: seq<T>, limit: int): seq<T> {
    if 0 < limit < |s| then s[..limit] else s
  }

  /** The messages of one partition, in stream order. */
  function PartitionOf<R>(stream: seq<Message<R>>, p: Partition): (r: seq<Message<R>>)
    ensures |r| <= |stream|
  {
    if stream == [] then []
    else
      var last := stream[|stream| - 1];
      PartitionOf(stream[..|stream| - 1], p) + if last.partition == p then [last] else []
  }

  /** The messages past `after`, in order. */
  function After<R>(messages: seq<Message<R>>, after: int): (r: seq<Message<R>>)
    ensures |r| <= |messages|
  {
    if messages == [] then []
    else
      var last := messages[|messages| - 1];
      After(messages[..|messages| - 1], after) + if last.offset > after then [last] else []
  }

  ghost predicate OffsetsIncrease<R>(messages: seq<Message<R>>) {
    forall i, j :: 0 <= i < j < |messages| ==> messages[i].offset < messages[j].offset
  }

  /** Offsets 1, 2, 3, ... without a gap. */
  ghost predicate Dense<R>(messages: seq<Message<R>>) {
    forall k :: 0 <= k < |messages| ==> messages[k].offset == k + 1
  }

  ghost predicate Distinct(partitions: seq<Partition>) {
    forall i, j :: 0 <= i < j < |partitions| ==> partitions[i] != partitions[j]
  }

  lemma PartitionOfAppend<R>(stream: seq<Message<R>>, m: Message<R>, p: Partition)
    ensures PartitionOf(stream + [m], p) == PartitionOf(stream, p) + if m.partition == p then [m] else []
  {
    assert (stream + [m])[..|stream|] == stream;
  }

  lemma {:induction false} PartitionOfSound<R>(stream: seq<Message<R>>, p: Partition, k: nat)
    requires k < |PartitionOf(stream, p)|
    ensures PartitionOf(stream, p)[k] in stream && PartitionOf(stream, p)[k].partition == p
  {
    var last := |stream| - 1;
    if k < |PartitionOf(stream[..last], p)| {
      PartitionOfSound(stream[..last], p, k);
    }
  }

  lemma {:induction false} PartitionOfMember<R>(stream: seq<Message<R>>, m: Message<R>)
    requires m in stream
    ensures m in PartitionOf(stream, m.partition)
  {
    var last := |stream| - 1;
    assert stream == stream[..last] + [stream[last]];
    if m in stream[..last] {
      PartitionOfMember(stream[..last], m);
    }
  }

  /** Positions in a partition follow positions in the stream. */
  lemma {:induction false} PartitionOfOrder<R>(stream: seq<Message<R>>, p: Partition, a: nat, b: nat)
    returns (i: nat, j: nat)
    requires a < b < |PartitionOf(stream, p)|
    ensures i < j < |stream| && stream[i].partition == stream[j].partition == p
    ensures stream[i] == PartitionOf(stream, p)[a] && stream[j] == PartitionOf(stream, p)[b]
  {
    var last := |stream| - 1;
    var rest := PartitionOf(stream[..last], p);
    PartitionOfSound(stream, p, b);
    if b < |rest| {
      i, j := PartitionOfOrder(stream[..last], p, a, b);
    } else {
      PartitionOfSound(stream[..last], p, a);
      i :| 0 <= i < last && stream[i] == rest[a];
      j := last;
    }
  }

  lemma {:induction false} AfterPrefix<R>(messages: seq<Message<R>>, after: int, k: nat)
    requires k <= |messages|
    ensures After(messages[..k], after) <= After(messages, after)
  {
    if k < |messages| {
      var last := |messages| - 1;
      AfterPrefix(messages[..last], after, k);
      assert messages[..last][..k] == messages[..k];
    } else {
      assert messages[..k] == messages;
    }
  }

  /** Where the offsets cross `after`, a fetch starts. */
  lemma {:induction false} AfterFrom<R>(messages: seq<Message<R>>, after: int, n: nat)
    requires n <= |messages|
    requires forall i :: 0 <= i < n ==> messages[i].offset <= after
    requires forall i :: n <= i < |messages| ==> messages[i].offset > after
    ensures After(messages, after) == messages[n..]
  {
    if |messages| > n {
      var last := |messages| - 1;
      AfterFrom(messages[..last], after, n);
      assert messages[n..] == messages[..last][n..] + [messages[last]];
    } else {
      AfterNone(messages, after);
    }
  }

  lemma {:induction false} AfterNone<R>(messages: seq<Message<R>>, after: int)
    requires forall k :: 0 <= k < |messages| ==> messages[k].offset <= after
    ensures After(messages, after) == []
  {
    if messages != [] {
      AfterNone(messages[..|messages| - 1], after);
    }
  }

  /** Membership in a fetch, both ways. */
  lemma {:induction false} AfterMember<R>(messages: seq<Message<R>>, after: int, m: Message<R>)
    ensures m in After(messages, after) <==> m in messages && m.offset > after
  {
    if messages != [] {
      var last := |messages| - 1;
      AfterMember(messages[..last], after, m);
      assert messages == messages[..last] + [messages[last]];
    }
  }

  function Fold<E, S>(apply: (S, E) -> S, init: S, events: seq<E>): S {
    if events == [] then init else apply(Fold(apply, init, events[..|events| - 1]), events[|events| - 1])
  }

  lemma {:induction false} FoldConcat<E, S>(apply: (S, E) -> S, init: S, a: seq<E>, b: seq<E>)
    ensures Fold(apply, init, a + b) == Fold(apply, Fold(apply, init, a), b)
  {
    if b == [] {
      assert a + b == a;
    } else {
      var n := |b| - 1;
      assert (a + b)[..|a + b| - 1] == a + b[..n];
      FoldConcat(apply, init, a, b[..n]);
    }
  }

  lemma FoldNone<E, S>(apply: (S, E) -> S, init: S, events: seq<E>)
    ensures Fold(apply, init, events[..0]) == init
  {
  }

  lemma FoldStep<E, S>(apply: (S, E) -> S, init: S, events: seq<E>, k: nat)
    requires k < |events|
    ensures Fold(apply, init, events[..k + 1]) == apply(Fold(apply, init, events[..k]), events[k])
  {
    assert events[..k + 1][..k] == events[..k];
  }

  /** What a fetch returns of a list with increasing offsets: what follows the first `k`
      messages, where these are the ones at or below `after`, cut at a positive limit. */
  ghost predicate Fetches<R>(source: seq<Message<R>>, after: int, limit: int, out: seq<Message<R>>, k: nat) {
    && k + |out| <= |source| && out == source[k..k + |out|]
    && (forall i :: 0 <= i < k ==> source[i].offset <= after) && (forall i :: k <= i < |source| ==> source[i].offset > after)
    && (limit > 0 ==> |out| <= limit) && (k + |out| < |source| ==> 0 < limit == |out|)
  }

  lemma FetchMeans<R>(source: seq<Message<R>>, after: int, limit: int) returns (k: nat)
    requires OffsetsIncrease(source)
    ensures Fetches(source, after, limit, Limit(After(source, after), limit), k)
  {
    hide Fetches, After, Limit;
    k := 0;
    while k < |source| && source[k].offset <= after
      invariant k <= |source| && forall i :: 0 <= i < k ==> source[i].offset <= after
    {
      k := k + 1;
    }
    FetchFrom(source, after, limit, k);
  }

  lemma FetchFrom<R>(source: seq<Message<R>>, after: int, limit: int, k: nat)
    requires k <= |source| && (forall i :: 0 <= i < k ==> source[i].offset <= after)
    requires forall i :: k <= i < |source| ==> source[i].offset > after
    ensures Fetches(source, after, limit, Limit(After(source, after), limit), k)
  {
    hide After;
    AfterFrom(source, after, k);
  }

  /** The fetch loop of both clients: skip what is at or below `after`, stop at
      the limit. */
  method FetchAfter<R>(source: seq<Message<R>>, after: int, limit: int) returns (out: seq<Message<R>>)
    ensures out == Limit(After(source, after), limit)
    ensures OffsetsIncrease(source) ==> exists k :: Fetches(source, after, limit, out, k)
  {
    if OffsetsIncrease(source) {
      var k := FetchMeans(source, after, limit);
    }
    out := [];
    var i := 0;
    while i < |source|
      invariant 0 <= i <= |source|
      invariant out == After(source[..i], after)
      invariant limit > 0 ==> |out| < limit
    {
      assert source[..i + 1][..i] == source[..i];
      AfterPrefix(source, after, i + 1);
      var m := source[i];
      i := i + 1;
      if m.offset > after {
        out := out + [m];
        if limit > 0 && |out| >= limit {
          return;
        }
      }
    }
    assert source[..i] == source;
  }
}
