/** The broker command log: one stream of commands, deduplicated by command
    receipt, with a monotone committed offset per partition. */
module BrokerCommandLog {
  import opened LogModel

  /** Physical broker coordinates of a command.  The in-memory log has none. */
  datatype SourcePosition =
    | NoSource
    | Source(backend: string, topic: string, physicalPartition: int, physicalOffset: int,
             commitOffset: int, logicalPartition: Partition, logicalOffset: int)
  {
    predicate ValidFor(partition: Partition, offset: int) {
      Source? ==>
        && Trim(backend) != "" && Trim(topic) != ""
        && physicalPartition >= 0 && physicalOffset >= 0
        && commitOffset > physicalOffset
        && logicalPartition.Normalize() == partition.Normalize()
        && logicalOffset == offset
    }
  }

  datatype CommandRecord = CommandRecord(
    partition: Partition, offset: int, source: SourcePosition, actor: string, cid: string,
    command: string, payload: string, enqueuedAt: int)

  type CommandMessage = Message<CommandRecord>

  datatype ReceiptKey = ReceiptKey(partition: Partition, actor: string, cid: string)

  predicate Blank(c: char) {
    c in {' ', '\t', '\n', '\r'}
  }

  function Trim(s: string): string {
    if s != "" && Blank(s[0]) then Trim(s[1..])
    else if s != "" && Blank(s[|s| - 1]) then Trim(s[..|s| - 1])
    else s
  }

  function Decimal(n: nat): string {
    if n < 10 then [('0' as int + n) as char]
    else Decimal(n / 10) + [('0' as int + n % 10) as char]
  }

  function SyntheticCid(p: Partition, offset: nat): string {
    "budgie:command-log:" + p.kind + ":" + p.key + ":" + Decimal(offset)
  }

  function KeyOf(p: Partition, actor: string, cid: string): Option<ReceiptKey> {
    if Trim(cid) == "" then None else Some(ReceiptKey(p, actor, Trim(cid)))
  }

  function MessageKey(m: CommandMessage): Option<ReceiptKey> {
    KeyOf(m.partition, m.data.actor, m.data.cid)
  }

  predicate SameCommand(existing: CommandRecord, requested: CommandRecord) {
    && existing.actor == requested.actor
    && existing.cid == requested.cid
    && existing.command == requested.command
    && existing.enqueuedAt == requested.enqueuedAt
    && existing.partition == requested.partition
    && existing.payload == requested.payload
  }

  datatype CommandLog = CommandLog(stream: seq<CommandMessage>, committed: map<Partition, int>) {
    function Tail(p: Partition): nat {
      |PartitionOf(stream, p)|
    }

    function Committed(p: Partition): int {
      OffsetOf(committed, p)
    }
  }

  /** The latest command stored under a receipt. */
  function FindReceipt(stream: seq<CommandMessage>, key: Option<ReceiptKey>): (r: Option<CommandMessage>)
    ensures r.Some? ==> r.value in stream && MessageKey(r.value) == key && key.Some?
  {
    if stream == [] || key.None? then None
    else
      var last := stream[|stream| - 1];
      if MessageKey(last) == key then Some(last) else FindReceipt(stream[..|stream| - 1], key)
  }

  ghost predicate Placed(m: CommandMessage) {
    && m.partition.Normal() && m.partition == m.data.partition && m.offset == m.data.offset
    && m.data.source.NoSource? && m.data.enqueuedAt > 0
  }

  ghost predicate Valid(log: CommandLog) {
    && (forall i :: 0 <= i < |log.stream| ==> log.stream[i].streamSeq == i + 1)
    && (forall i :: 0 <= i < |log.stream| ==> Placed(log.stream[i]))
    && (forall p :: Dense(PartitionOf(log.stream, p)))
    && (forall p :: p in log.committed ==> p.Normal() && 0 <= log.committed[p])
  }

  datatype CommandAppended = CommandAppended(log: CommandLog, message: CommandMessage)

  function Stamped(log: CommandLog, now: int, r: CommandRecord): CommandRecord {
    var offset := log.Tail(r.partition) + 1;
    r.(offset := offset,
       cid := if r.cid == "" then SyntheticCid(r.partition, offset) else r.cid,
       enqueuedAt := if r.enqueuedAt <= 0 then now else r.enqueuedAt)
  }

  function AppendCommand(log: CommandLog, now: int, partition: Partition,
                         record: CommandRecord): Result<CommandAppended> {
    if Trim(record.cid) != "" && record.enqueuedAt <= 0 then Err(MissingEnqueueTime)
    else
      var r := record.(partition := partition.Normalize(), source := NoSource);
      var existing := FindReceipt(log.stream, KeyOf(r.partition, r.actor, r.cid));
      if existing.Some? then
        if SameCommand(existing.value.data, r) then Ok(CommandAppended(log, existing.value)) else Err(DuplicateReceipt)
      else
        var data := Stamped(log, now, r);
        if data.command == "" || data.payload == "" || data.enqueuedAt <= 0 then Err(Unencodable)
        else
          var m := Message(data.partition, data.offset, |log.stream| + 1, data);
          Ok(CommandAppended(log.(stream := log.stream + [m]), m))
  }

  function Commit(committed: map<Partition, int>, partition: Partition, offset: int): map<Partition, int> {
    var p := partition.Normalize();
    if offset > OffsetOf(committed, p) then committed[p := offset] else committed
  }

  /** A commit raises one committed offset, if that is higher, and no other. */
  lemma CommitRaises(committed: map<Partition, int>, partition: Partition, offset: int, q: Partition)
    ensures OffsetOf(Commit(committed, partition, offset), q) ==
            if q == partition.Normalize() && offset > OffsetOf(committed, q) then offset else OffsetOf(committed, q)
  {
  }

  ghost predicate AllBlank(s: string) {
    forall i :: 0 <= i < |s| ==> s[i] == ' ' || s[i] == '\t' || s[i] == '\n' || s[i] == '\r'
  }

  /** Trimming removes blanks at both ends and nothing else. */
  lemma {:induction false} TrimMeans(s: string) returns (front: string, back: string)
    ensures s == front + Trim(s) + back && AllBlank(front) && AllBlank(back)
    ensures Trim(s) != "" ==> !AllBlank([Trim(s)[0]]) && !AllBlank([Trim(s)[|Trim(s)| - 1]])
  {
    if s != "" && Blank(s[0]) {
      var f, b := TrimMeans(s[1..]);
      front, back := [s[0]] + f, b;
      assert Trim(s) == Trim(s[1..]);
      assert s == [s[0]] + (f + Trim(s) + b);
    } else if s != "" && Blank(s[|s| - 1]) {
      var f, b := TrimMeans(s[..|s| - 1]);
      front, back := f, b + [s[|s| - 1]];
      assert Trim(s) == Trim(s[..|s| - 1]);
      assert s == (f + Trim(s) + b) + [s[|s| - 1]];
    } else {
      front, back := "", "";
      assert s != "" ==> !Blank([s[0]][0]) && !Blank([s[|s| - 1]][0]);
    }
  }

  function ValueOf(digits: string): int {
    if digits == "" then 0 else 10 * ValueOf(digits[..|digits| - 1]) + (digits[|digits| - 1] as int - '0' as int)
  }

  /** The cid the log makes up for the command at an offset: a fixed prefix, the partition
      and the offset in decimal. */
  lemma {:induction false} DecimalMeans(n: nat)
    ensures ValueOf(Decimal(n)) == n && Decimal(n) != ""
    ensures forall i :: 0 <= i < |Decimal(n)| ==> '0' <= Decimal(n)[i] <= '9'
  {
    if n >= 10 {
      DecimalMeans(n / 10);
      assert Decimal(n)[..|Decimal(n)| - 1] == Decimal(n / 10);
    } else {
      assert Decimal(n)[..0] == "";
    }
  }

  lemma SyntheticCidIs()
    ensures SyntheticCid(Partition("board", "b"), 12) == "budgie:command-log:board:b:12"
  {
    assert Decimal(1) == "1";
    assert Decimal(12) == "1" + "2";
    assert "budgie:command-log:" + "board" + ":" + "b" + ":" + ("1" + "2") == "budgie:command-log:board:b:12";
  }

  /** A position fits the command it names and no other: a topic of some backend, no
      negative place, and a commit offset past the place. */
  lemma SourceFits(s: SourcePosition, p: Partition, offset: int)
    ensures s.ValidFor(p, offset) <==>
              s == NoSource
              || (Trim(s.backend) != "" && Trim(s.topic) != "" && 0 <= s.physicalPartition
                  && 0 <= s.physicalOffset < s.commitOffset
                  && s.logicalPartition.Normalize() == p.Normalize() && s.logicalOffset == offset)
  {
  }

  lemma FindReceiptAppend(stream: seq<CommandMessage>, m: CommandMessage, key: Option<ReceiptKey>)
    requires key.Some?
    ensures FindReceipt(stream + [m], key) == if MessageKey(m) == key then Some(m) else FindReceipt(stream, key)
  {
    assert (stream + [m])[..|stream|] == stream;
  }

  lemma DenseOf(log: CommandLog, p: Partition)
    requires Valid(log)
    ensures Dense(PartitionOf(log.stream, p)) && log.Committed(p) >= 0
  {
  }

  lemma PushCommand(log: CommandLog, m: CommandMessage)
    requires Valid(log) && Placed(m)
    requires m.streamSeq == |log.stream| + 1 && m.offset == log.Tail(m.partition) + 1
    ensures Valid(log.(stream := log.stream + [m]))
  {
    forall p ensures Dense(PartitionOf(log.stream + [m], p)) {
      PartitionOfAppend(log.stream, m, p);
      assert Dense(PartitionOf(log.stream, p));
    }
  }

  /** An append keeps offsets 1..tail in every partition and only extends. */
  lemma AppendCommandValid(log: CommandLog, now: int, partition: Partition, record: CommandRecord)
    requires Valid(log) && AppendCommand(log, now, partition, record).Ok?
    ensures Valid(AppendCommand(log, now, partition, record).value.log)
    ensures AppendCommand(log, now, partition, record).value.log.committed == log.committed
    ensures forall p :: PartitionOf(log.stream, p) <= PartitionOf(AppendCommand(log, now, partition, record).value.log.stream, p)
  {
    var a := AppendCommand(log, now, partition, record).value;
    if FindReceipt(log.stream, KeyOf(partition.Normalize(), record.actor, record.cid)).None? {
      PushCommand(log, a.message);
      forall p ensures PartitionOf(log.stream, p) <= PartitionOf(a.log.stream, p) {
        PartitionOfAppend(log.stream, a.message, p);
      }
    }
  }

  /** Stored under this actor and cid in the partition. */
  ghost predicate StoredAs(m: CommandMessage, p: Partition, actor: string, cid: string) {
    m.partition == p && m.data.actor == actor && Trim(m.data.cid) == Trim(cid)
  }

  lemma {:induction false} FoundLatest(stream: seq<CommandMessage>, p: Partition, actor: string, cid: string, i: nat)
    requires Trim(cid) != "" && i < |stream| && StoredAs(stream[i], p, actor, cid)
    requires forall j :: i < j < |stream| ==> !StoredAs(stream[j], p, actor, cid)
    ensures FindReceipt(stream, KeyOf(p, actor, cid)) == Some(stream[i])
  {
    var n := |stream| - 1;
    if i < n {
      assert !StoredAs(stream[n], p, actor, cid);
      FoundLatest(stream[..n], p, actor, cid, i);
    }
  }

  lemma {:induction false} FoundNone(stream: seq<CommandMessage>, p: Partition, actor: string, cid: string)
    requires Trim(cid) == "" || forall j :: 0 <= j < |stream| ==> !StoredAs(stream[j], p, actor, cid)
    ensures FindReceipt(stream, KeyOf(p, actor, cid)) == None
  {
    if stream != [] {
      FoundNone(stream[..|stream| - 1], p, actor, cid);
    }
  }

  /** An append with an actor and cid that the partition has: the latest such command is
      returned if it is the same command, and otherwise the append is refused. */
  lemma AppendOfReceipt(log: CommandLog, now: int, partition: Partition, record: CommandRecord, i: nat)
    requires Valid(log) && Trim(record.cid) != "" && record.enqueuedAt > 0 && i < |log.stream|
    requires StoredAs(log.stream[i], partition.Normalize(), record.actor, record.cid)
    requires forall j :: i < j < |log.stream| ==>
              !StoredAs(log.stream[j], partition.Normalize(), record.actor, record.cid)
    ensures
      var r, c := AppendCommand(log, now, partition, record), log.stream[i].data;
      && (r.Ok? <==> c.cid == record.cid && c.command == record.command && c.payload == record.payload
                     && c.enqueuedAt == record.enqueuedAt)
      && (r.Ok? ==> r.value == CommandAppended(log, log.stream[i])) && (r.Err? ==> r.error == DuplicateReceipt)
  {
    FoundLatest(log.stream, partition.Normalize(), record.actor, record.cid, i);
    assert Placed(log.stream[i]);
  }

  /** Any other append: refused without an enqueue time if it has a cid, without a command
      or a payload; otherwise it is the next command of its partition, with the cid made up
      and the time taken from the clock where it has none. */
  lemma AppendOfOther(log: CommandLog, now: int, partition: Partition, record: CommandRecord)
    requires Trim(record.cid) == ""
             || forall j :: 0 <= j < |log.stream| ==>
                 !StoredAs(log.stream[j], partition.Normalize(), record.actor, record.cid)
    ensures
      var r, p, next := AppendCommand(log, now, partition,
                                      record), partition.Normalize(), log.Tail(partition.Normalize()) + 1;
      && (r.Ok? <==> record.command != "" && record.payload != "" && (record.enqueuedAt > 0 || (Trim(record.cid) == "" && now > 0)))
      && (r.Ok? ==>
            var m := r.value.message;
            && r.value.log.stream == log.stream + [m] && r.value.log.committed == log.committed
            && m.partition == p && m.offset == next && m.streamSeq == |log.stream| + 1
            && m.data.partition == p && m.data.offset == next && m.data.source == NoSource
            && m.data.actor == record.actor && m.data.command == record.command && m.data.payload == record.payload
            && m.data.cid == (if record.cid == "" then SyntheticCid(p, next) else record.cid)
            && m.data.enqueuedAt == if record.enqueuedAt > 0 then record.enqueuedAt else now)
  {
    FoundNone(log.stream, partition.Normalize(), record.actor, record.cid);
  }

  /** The same cid from two actors is two commands: both are stored, and repeating either
      returns its own message. */
  lemma ActorsDoNotClash(log: CommandLog, now: int, partition: Partition, a: CommandRecord, b: CommandRecord)
    requires Valid(log) && a.cid == b.cid && Trim(a.cid) != "" && a.actor != b.actor
    requires a.enqueuedAt > 0 && b.enqueuedAt > 0 && a.command != "" && b.command != "" && a.payload != ""
    requires b.payload != ""
    requires forall j :: 0 <= j < |log.stream| ==>
               !StoredAs(log.stream[j], partition.Normalize(), a.actor, a.cid)
               && !StoredAs(log.stream[j], partition.Normalize(), b.actor, b.cid)
    ensures
      var one := AppendCommand(log, now, partition, a);
      && one.Ok?
      && var two := AppendCommand(one.value.log, now, partition, b);
      && two.Ok? && two.value.log.stream == log.stream + [one.value.message, two.value.message]
      && one.value.message.data.actor == a.actor && two.value.message.data.actor == b.actor
      && AppendCommand(two.value.log, now, partition, a) == Ok(CommandAppended(two.value.log, one.value.message))
      && AppendCommand(two.value.log, now, partition, b) == Ok(CommandAppended(two.value.log, two.value.message))
  {
    hide Valid, AppendCommand;
    AppendOfOther(log, now, partition, a);
    AppendCommandValid(log, now, partition, a);
    var one := AppendCommand(log, now, partition, a).value;
    AppendOfOther(one.log, now, partition, b);
    AppendCommandValid(one.log, now, partition, b);
    var two := AppendCommand(one.log, now, partition, b).value;
    AppendOfReceipt(two.log, now, partition, a, |log.stream|);
    AppendOfReceipt(two.log, now, partition, b, |log.stream| + 1);
  }

  /** A stored receipt keeps naming its command across an append, except when an
      append without a cid is given the synthetic cid that the receipt already
      carries. */
  lemma ReceiptKept(log: CommandLog, now: int, partition: Partition, record: CommandRecord, key: ReceiptKey)
    requires Valid(log) && AppendCommand(log, now, partition, record).Ok?
    requires FindReceipt(log.stream, Some(key)).Some?
    ensures
      var p := partition.Normalize();
      FindReceipt(AppendCommand(log, now, partition, record).value.log.stream, Some(key)) == FindReceipt(log.stream, Some(key))
      <==> !(record.cid == "" && KeyOf(p, record.actor, SyntheticCid(p, log.Tail(p) + 1)) == Some(key))
  {
    var m := AppendCommand(log, now, partition, record).value.message;
    if FindReceipt(log.stream, KeyOf(partition.Normalize(), record.actor, record.cid)).None? {
      FindReceiptAppend(log.stream, m, Some(key));
    }
  }

  /** The exception is real: a caller may send the cid that the log will later
      make up, and its own retry is then refused. */
  lemma SyntheticCidShadowsReceipt(first: CommandRecord, second: CommandRecord)
    requires first.partition == second.partition && first.partition.Normal()
    requires first.cid == SyntheticCid(first.partition, 2) && second.cid == ""
    requires first.actor == second.actor && first.command != "" && second.command != ""
    requires first.payload != second.payload
    requires first.payload != "" && second.payload != "" && first.enqueuedAt > 0 && second.enqueuedAt > 0
    ensures
      var one := AppendCommand(CommandLog([], map[]), 0, first.partition, first);
      && one.Ok? && one.value.message.offset == 1
      && AppendCommand(one.value.log, 0, first.partition, first) == one
      && var two := AppendCommand(one.value.log, 0, first.partition, second);
      && two.Ok? && two.value.message.offset == 2
      && AppendCommand(two.value.log, 0, first.partition, first) == Err(DuplicateReceipt)
  {
    TrimKeepsWords(first.cid);
    var one := AppendCommand(CommandLog([], map[]), 0, first.partition, first).value;
    PartitionOfAppend([], one.message, first.partition);
    var two := AppendCommand(one.log, 0, first.partition, second).value;
    FindReceiptAppend([], one.message, MessageKey(one.message));
    assert one.log.stream == [] + [one.message];
    FindReceiptAppend(one.log.stream, two.message, MessageKey(one.message));
  }

  lemma {:induction false} TrimKeepsWords(s: string)
    requires s != "" && !Blank(s[0])
    ensures Trim(s) != ""
    decreases |s|
  {
    if Blank(s[|s| - 1]) {
      TrimKeepsWords(s[..|s| - 1]);
    }
  }

  function ListOf(messages: map<Partition, seq<CommandMessage>>, p: Partition): seq<CommandMessage> {
    if p in messages then messages[p] else []
  }

  /** The client's maps describe exactly this stream. */
  ghost predicate Indexes(stream: seq<CommandMessage>, messages: map<Partition, seq<CommandMessage>>,
                          tails: map<Partition, int>, byReceipt: map<ReceiptKey, CommandMessage>)
  {
    && (forall p :: ListOf(messages, p) == PartitionOf(stream, p))
    && (forall p :: OffsetOf(tails, p) == |PartitionOf(stream, p)|)
    && (forall k :: k in byReceipt ==> FindReceipt(stream, Some(k)) == Some(byReceipt[k]))
    && (forall k :: FindReceipt(stream, Some(k)).Some? ==> k in byReceipt)
  }

  lemma LookUp(stream: seq<CommandMessage>, messages: map<Partition, seq<CommandMessage>>,
               tails: map<Partition, int>, byReceipt: map<ReceiptKey, CommandMessage>, key: Option<ReceiptKey>, p: Partition)
    requires Indexes(stream, messages, tails, byReceipt)
    ensures OffsetOf(tails, p) == |PartitionOf(stream, p)|
    ensures FindReceipt(stream, key) ==
            if key.Some? && key.value in byReceipt then Some(byReceipt[key.value]) else None
  {
  }

  lemma IndexesPush(stream: seq<CommandMessage>, messages: map<Partition, seq<CommandMessage>>,
                    tails: map<Partition, int>, byReceipt: map<ReceiptKey, CommandMessage>, m: CommandMessage,
                    messages': map<Partition, seq<CommandMessage>>,
                    tails': map<Partition, int>, byReceipt': map<ReceiptKey, CommandMessage>)
    requires Indexes(stream, messages, tails, byReceipt)
    requires m.offset == |PartitionOf(stream, m.partition)| + 1
    requires messages' == messages[m.partition := ListOf(messages, m.partition) + [m]]
    requires tails' == tails[m.partition := m.offset]
    requires byReceipt' == if MessageKey(m).None? then byReceipt else byReceipt[MessageKey(m).value := m]
    ensures Indexes(stream + [m], messages', tails', byReceipt')
  {
    forall p
      ensures ListOf(messages', p) == PartitionOf(stream + [m], p)
      ensures OffsetOf(tails', p) == |PartitionOf(stream + [m], p)|
    {
      PartitionOfAppend(stream, m, p);
      assert ListOf(messages, p) == PartitionOf(stream, p);
      assert OffsetOf(tails, p) == |PartitionOf(stream, p)|;
    }
    forall k ensures FindReceipt(stream + [m],
                                 Some(k)) == if MessageKey(m) == Some(k) then Some(m) else FindReceipt(stream, Some(k)) {
      FindReceiptAppend(stream, m, Some(k));
    }
  }
}
