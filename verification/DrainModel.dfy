/** What finalizing commands does, on values: record by record, and a whole batch
    in one transaction.  The two are proved equal. */
module DrainModel {
  import opened LogModel
  import opened BrokerEventLog
  import opened CommandEventTransaction
  import opened Decisions
  import C = BrokerCommandLog
  import S = TransactionStore

  datatype Slot = Slot(partition: Partition, offset: int)

  datatype Receipt = AppliedAt(scalar: int) | FailedForGood | Retrying

  /** Everything durable that a drain touches. */
  datatype World = World(commands: C.CommandLog, events: EventLog, receipts: map<Slot, Receipt>)

  /** The code around the worker: what a command decides, whether its execution
      asks for a retry, the sequence already in its reply (none: no reply body),
      and which calls to the event decider or the receipt recorders fail. */
  datatype Behaviour = Behaviour(
    decide: Decider, retries: C.CommandRecord -> bool, reply: C.CommandRecord -> Option<int>,
    deciderFails: C.CommandRecord -> bool, receiptFails: C.CommandRecord -> bool)

  function SlotOf(r: C.CommandRecord): Slot {
    Slot(r.partition, r.offset)
  }

  /** The highest scalar sequence among the messages, at least s. */
  function RaisedSeq(s: int, messages: seq<EventMessage>): (r: int)
    ensures r >= s && forall i :: 0 <= i < |messages| ==> EventSeq(messages[i]) <= r
    ensures r == s || exists i :: 0 <= i < |messages| && EventSeq(messages[i]) == r
  {
    if messages == [] then s
    else
      var n := |messages| - 1;
      var rest := RaisedSeq(s, messages[..n]);
      if EventSeq(messages[n]) > rest then EventSeq(messages[n]) else rest
  }

  /** The receipt of a command whose events were stored as these messages. */
  function ReceiptFor(b: Behaviour, r: C.CommandRecord, messages: seq<EventMessage>): Option<Receipt> {
    if b.decide(r).Terminal? then Some(FailedForGood)
    else
      match b.reply(r)
      case None => None
      case Some(s) => Some(AppliedAt(if s <= 0 then RaisedSeq(s, messages) else s))
  }

  function Put(receipts: map<Slot, Receipt>, slot: Slot, receipt: Option<Receipt>): map<Slot, Receipt> {
    if receipt.None? then receipts else receipts[slot := receipt.value]
  }

  /** The simple form: one transaction and one receipt for one command. */
  function FinalizeOne(b: Behaviour, w: World, r: C.CommandRecord): Result<World> {
    var s := AppendAll(w.events, S.Requests(EventsOf(b.decide(r))));
    if s.Err? then Err(s.error)
    else
      Ok(World(w.commands.(committed := C.Commit(w.commands.committed, r.partition, r.offset)), s.value.log,
               Put(w.receipts, SlotOf(r), ReceiptFor(b, r, s.value.messages))))
  }

  function FinalizeEach(b: Behaviour, w: World, records: seq<C.CommandRecord>): Result<World> {
    if records == [] then Ok(w)
    else
      var init := FinalizeEach(b, w, records[..|records| - 1]);
      if init.Err? then init else FinalizeOne(b, init.value, records[|records| - 1])
  }

  // ---- The batch form -----------------------------------------------------------

  datatype Written = Written(slot: Slot, receipt: Receipt)

  function WriteAll(receipts: map<Slot, Receipt>, writes: seq<Written>): map<Slot, Receipt> {
    if writes == [] then receipts
    else
      var n := |writes| - 1;
      WriteAll(receipts, writes[..n])[writes[n].slot := writes[n].receipt]
  }

  /** Where the events of the command at index i end in the batch. */
  function EndOf(b: Behaviour, records: seq<C.CommandRecord>, i: nat): nat
    requires i <= |records|
  {
    |DecidedEvents(b.decide, records[..i])|
  }

  lemma EndGrows(b: Behaviour, records: seq<C.CommandRecord>, i: nat)
    requires i < |records|
    ensures EndOf(b, records, i + 1) == EndOf(b, records, i) + |EventsOf(b.decide(records[i]))|
    ensures EndOf(b, records, i + 1) <= |DecidedEvents(b.decide, records)|
  {
    hide DecidedEvents;
    DecidedSnoc(b.decide, records, i);
    DecidedConcat(b.decide, records[..i + 1], records[i + 1..]);
    assert records == records[..i + 1] + records[i + 1..];
  }

  lemma DecidedSnoc(decide: Decider, records: seq<C.CommandRecord>, i: nat)
    requires i < |records|
    ensures DecidedEvents(decide, records[..i + 1]) ==
            DecidedEvents(decide, records[..i]) + EventsOf(decide(records[i]))
  {
    assert records[..i + 1][..i] == records[..i];
  }

  /** The receipt of the command at index i, from its own range of the messages. */
  function ReceiptAt(b: Behaviour, records: seq<C.CommandRecord>, messages: seq<EventMessage>, i: nat): Option<Receipt>
    requires i < |records| && |messages| == |DecidedEvents(b.decide, records)|
  {
    EndGrows(b, records, i);
    ReceiptFor(b, records[i], messages[EndOf(b, records, i)..EndOf(b, records, i + 1)])
  }

  datatype Phase = Failures | Successes | Both

  /** The receipts of the first n commands, in order: those of terminal failures,
      those of applied commands, or all. */
  function Writes(b: Behaviour, records: seq<C.CommandRecord>, messages: seq<EventMessage>, n: nat,
                  phase: Phase): (r: seq<Written>)
    requires n <= |records| && |messages| == |DecidedEvents(b.decide, records)|
    ensures forall k :: 0 <= k < |r| ==> exists i :: 0 <= i < n && r[k].slot == SlotOf(records[i])
  {
    if n == 0 then []
    else
      var rest := Writes(b, records, messages, n - 1, phase);
      var receipt := ReceiptAt(b, records, messages, n - 1);
      rest + if Chosen(b, records[n - 1], phase) then WriteOf(records[n - 1], receipt) else []
  }

  function WriteOf(r: C.CommandRecord, receipt: Option<Receipt>): seq<Written> {
    if receipt.None? then [] else [Written(SlotOf(r), receipt.value)]
  }

  predicate Chosen(b: Behaviour, r: C.CommandRecord, phase: Phase) {
    phase.Both? || (phase.Failures? <==> b.decide(r).Terminal?)
  }

  lemma WriteOfAppend(receipts: map<Slot, Receipt>, writes: seq<Written>, r: C.CommandRecord, receipt: Option<Receipt>)
    ensures WriteAll(receipts, writes + WriteOf(r, receipt)) == Put(WriteAll(receipts, writes), SlotOf(r), receipt)
  {
    if receipt.Some? {
      var w := Written(SlotOf(r), receipt.value);
      assert (writes + [w])[..|writes|] == writes;
    } else {
      assert writes + [] == writes;
    }
  }

  /** The fast form: all events in one transaction that commits the last offset,
      then the terminal receipts, then the applied ones. */
  function FinalizeAll(b: Behaviour, w: World, records: seq<C.CommandRecord>): Result<World>
    requires records != []
  {
    var last := records[|records| - 1];
    var events := DecidedEvents(b.decide, records);
    var r := AppendAll(w.events, S.Requests(events));
    if r.Err? then Err(r.error)
    else
      var failures := Writes(b, records, r.value.messages, |records|, Failures);
      var successes := Writes(b, records, r.value.messages, |records|, Successes);
      Ok(World(w.commands.(committed := C.Commit(w.commands.committed, last.partition, last.offset)), r.value.log,
               WriteAll(WriteAll(w.receipts, failures), successes)))
  }

  ghost predicate Increasing(records: seq<C.CommandRecord>, p: Partition) {
    && (forall i :: 0 <= i < |records| ==> records[i].partition == p)
    && (forall i, j :: 0 <= i < j < |records| ==> records[i].offset < records[j].offset)
  }

  lemma {:induction false} PutCommutes(receipts: map<Slot, Receipt>, writes: seq<Written>, slot: Slot,
                                       receipt: Option<Receipt>)
    requires forall k :: 0 <= k < |writes| ==> writes[k].slot != slot
    ensures WriteAll(Put(receipts, slot, receipt), writes) == Put(WriteAll(receipts, writes), slot, receipt)
  {
    if writes != [] {
      var n := |writes| - 1;
      PutCommutes(receipts, writes[..n], slot, receipt);
    }
  }

  lemma NothingWritten(receipts: map<Slot, Receipt>)
    ensures WriteAll(receipts, []) == receipts
  {
  }

  /** Writing failures first and successes second is writing in command order. */
  lemma {:induction false} PhasesMerge(b: Behaviour, receipts: map<Slot, Receipt>, records: seq<C.CommandRecord>,
                                       messages: seq<EventMessage>, n: nat, p: Partition)
    requires n <= |records| && |messages| == |DecidedEvents(b.decide, records)| && Increasing(records, p)
    ensures WriteAll(WriteAll(receipts, Writes(b, records, messages, n, Failures)),
                     Writes(b, records, messages, n, Successes))
            == WriteAll(receipts, Writes(b, records, messages, n, Both))
  {
    hide ReceiptAt, DecidedEvents, WriteAll, WriteOf, Put;
    if n > 0 {
      PhasesMerge(b, receipts, records, messages, n - 1, p);
      var r, receipt := records[n - 1], ReceiptAt(b, records, messages, n - 1);
      var failures := Writes(b, records, messages, n - 1, Failures);
      var successes := Writes(b, records, messages, n - 1, Successes);
      WriteOfAppend(receipts, Writes(b, records, messages, n - 1, Both), r, receipt);
      assert failures + [] == failures && successes + [] == successes;
      if b.decide(r).Terminal? {
        WriteOfAppend(receipts, failures, r, receipt);
        forall k | 0 <= k < |successes| ensures successes[k].slot != SlotOf(r) {
          var i :| 0 <= i < n - 1 && successes[k].slot == SlotOf(records[i]);
        }
        PutCommutes(WriteAll(receipts, failures), successes, SlotOf(r), receipt);
      } else {
        WriteOfAppend(WriteAll(receipts, failures), successes, r, receipt);
      }
    } else {
      NothingWritten(receipts);
    }
  }

  lemma RequestsConcat(a: seq<EventRecord>, b: seq<EventRecord>)
    ensures S.Requests(a + b) == S.Requests(a) + S.Requests(b)
  {
    hide S.Requests;
  }

  /** Receipts of earlier commands do not depend on what follows in the batch. */
  lemma {:induction false} WritesPrefix(b: Behaviour, records: seq<C.CommandRecord>, messages: seq<EventMessage>,
                                        k: nat, n: nat)
    requires n <= k <= |records| && |messages| == |DecidedEvents(b.decide, records)|
    requires EndOf(b, records, k) <= |messages|
    ensures Writes(b, records[..k], messages[..EndOf(b, records, k)], n, Both) == Writes(b, records, messages, n, Both)
  {
    hide DecidedEvents, ReceiptAt, WriteOf;
    if n > 0 {
      WritesPrefix(b, records, messages, k, n - 1);
      ReceiptPrefix(b, records, messages, k, n - 1);
      assert records[..k][n - 1] == records[n - 1];
    }
  }

  lemma ReceiptPrefix(b: Behaviour, records: seq<C.CommandRecord>, messages: seq<EventMessage>, k: nat, i: nat)
    requires i < k <= |records| && |messages| == |DecidedEvents(b.decide, records)|
    requires EndOf(b, records, k) <= |messages|
    ensures ReceiptAt(b, records[..k], messages[..EndOf(b, records, k)], i) == ReceiptAt(b, records, messages, i)
  {
    hide DecidedEvents, ReceiptFor;
    assert records[..k][..i + 1] == records[..i + 1] && records[..k][..i] == records[..i];
    EndGrows(b, records[..k], i);
    EndGrows(b, records, i);
    var e, from, to := EndOf(b, records, k), EndOf(b, records, i), EndOf(b, records, i + 1);
    assert messages[..e][from..to] == messages[from..to];
  }

  function CommitLast(commands: C.CommandLog, records: seq<C.CommandRecord>): C.CommandLog {
    if records == [] then commands
    else
      var last := records[|records| - 1];
      commands.(committed := C.Commit(commands.committed, last.partition, last.offset))
  }

  /** The reference for both: all receipts in command order, one commit. */
  function Combined(b: Behaviour, w: World, records: seq<C.CommandRecord>, batch: Batch): World
    requires |batch.messages| == |DecidedEvents(b.decide, records)|
  {
    World(CommitLast(w.commands, records), batch.log,
          WriteAll(w.receipts, Writes(b, records, batch.messages, |records|, Both)))
  }

  function InOrder(b: Behaviour, w: World, records: seq<C.CommandRecord>): Result<World> {
    var r := AppendAll(w.events, S.Requests(DecidedEvents(b.decide, records)));
    if r.Err? then Err(r.error) else Ok(Combined(b, w, records, r.value))
  }

  lemma CommitSnoc(commands: C.CommandLog, records: seq<C.CommandRecord>, p: Partition)
    requires records != [] && Increasing(records, p)
    ensures
      var last := records[|records| - 1];
      var init := CommitLast(commands, records[..|records| - 1]);
      CommitLast(commands, records) == init.(committed := C.Commit(init.committed, last.partition, last.offset))
  {
  }

  lemma ReceiptsSnoc(b: Behaviour, receipts: map<Slot, Receipt>, records: seq<C.CommandRecord>, one: seq<EventMessage>,
                     two: seq<EventMessage>)
    requires records != []
    requires |one| == |DecidedEvents(b.decide, records[..|records| - 1])|
    requires |two| == |EventsOf(b.decide(records[|records| - 1]))|
    ensures |one + two| == |DecidedEvents(b.decide, records)|
    ensures
      var n := |records| - 1;
      WriteAll(receipts, Writes(b, records, one + two, n + 1, Both))
      == Put(WriteAll(receipts, Writes(b, records[..n], one, n, Both)), SlotOf(records[n]),
             ReceiptFor(b, records[n], two))
  {
    hide DecidedEvents, WriteAll, WriteOf, ReceiptFor;
    var n := |records| - 1;
    var all := one + two;
    assert records[..n + 1] == records;
    DecidedSnoc(b.decide, records, n);
    WritesPrefix(b, records, all, n, n);
    assert all[..|one|] == one && all[|one|..|all|] == two;
    WriteOfAppend(receipts, Writes(b, records, all, n, Both), records[n], ReceiptAt(b, records, all, n));
  }

  lemma {:induction false} EachIsInOrder(b: Behaviour, w: World, records: seq<C.CommandRecord>, p: Partition)
    requires Increasing(records, p)
    ensures FinalizeEach(b, w, records) == InOrder(b, w, records)
  {
    hide AppendAll, DecidedEvents, Writes, WriteAll, CommitLast, Put, ReceiptFor, S.Requests;
    if records == [] {
      NothingInOrder(b, w);
    } else {
      var n := |records| - 1;
      var init, last := records[..n], records[n];
      EachIsInOrder(b, w, init, p);
      assert records[..n + 1] == records;
      DecidedSnoc(b.decide, records, n);
      RequestsConcat(DecidedEvents(b.decide, init), EventsOf(b.decide(last)));
      AppendAllConcat(w.events, S.Requests(DecidedEvents(b.decide, init)), S.Requests(EventsOf(b.decide(last))));
      CommitSnoc(w.commands, records, p);
      var one := AppendAll(w.events, S.Requests(DecidedEvents(b.decide, init)));
      if one.Ok? && AppendAll(one.value.log, S.Requests(EventsOf(b.decide(last)))).Ok? {
        var two := AppendAll(one.value.log, S.Requests(EventsOf(b.decide(last)))).value;
        ReceiptsSnoc(b, w.receipts, records, one.value.messages, two.messages);
      }
    }
  }

  lemma NothingInOrder(b: Behaviour, w: World)
    ensures InOrder(b, w, []) == Ok(w)
  {
  }

  /** One transaction for the batch leaves the same logs, committed offset and
      receipts as one transaction per command, and fails when that fails. */
  lemma BatchRefinesEach(b: Behaviour, w: World, records: seq<C.CommandRecord>, p: Partition)
    requires records != [] && Increasing(records, p)
    ensures FinalizeAll(b, w, records) == FinalizeEach(b, w, records)
  {
    hide AppendAll, FinalizeEach, DecidedEvents, Writes, WriteAll;
    EachIsInOrder(b, w, records, p);
    var r := AppendAll(w.events, S.Requests(DecidedEvents(b.decide, records)));
    if r.Ok? {
      PhasesMerge(b, w.receipts, records, r.value.messages, |records|, p);
    }
  }
}
