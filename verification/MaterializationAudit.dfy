/** The materialization audit: walk the committed offsets of a partition in pages and
    account for each of them. */
module MaterializationAudit {
  import opened LogModel
  import C = BrokerCommandLog

  datatype Status = WasApplied | WasFailed | IsRetrying | Unknown

  datatype Report = Report(applied: int, terminal: int, retrying: int, unmaterialized: int, missing: int) {
    function Total(): int {
      applied + terminal + retrying + unmaterialized + missing
    }

    /** Nothing was found wanting. */
    predicate Complete() {
      retrying == 0 && unmaterialized == 0 && missing == 0
    }

    function Plus(other: Report): Report {
      Report(applied + other.applied, terminal + other.terminal, retrying + other.retrying,
             unmaterialized + other.unmaterialized, missing + other.missing)
    }

    function Add(status: Status): Report {
      match status
      case WasApplied => this.(applied := applied + 1)
      case WasFailed => this.(terminal := terminal + 1)
      case IsRetrying => this.(retrying := retrying + 1)
      case Unknown => this.(unmaterialized := unmaterialized + 1)
    }

    function Missing(count: int): Report {
      this.(missing := missing + count)
    }
  }

  const Empty := Report(0, 0, 0, 0, 0)

  type Record = C.CommandMessage

  /** What a log still holds of one partition: offsets increase, gaps may be lost. */
  ghost predicate Retained(records: seq<Record>) {
    OffsetsIncrease(records) && forall i :: 0 <= i < |records| ==> records[i].offset >= 1
  }

  function LastOffset(records: seq<Record>): int {
    if records == [] then 0 else records[|records| - 1].offset
  }

  function UpTo(records: seq<Record>, committed: int): (r: seq<Record>)
    ensures |r| <= |records|
  {
    if records == [] then []
    else
      var last := records[|records| - 1];
      UpTo(records[..|records| - 1], committed) + if last.offset <= committed then [last] else []
  }

  /** Each record by its status, and the offsets missing before it unless the broker
      numbers records by physical position. */
  function Tally(records: seq<Record>, statusOf: Record -> Status): Report {
    if records == [] then Empty
    else
      var init, last := records[..|records| - 1], records[|records| - 1];
      var gap := if last.data.source.NoSource? then last.offset - LastOffset(init) - 1 else 0;
      Tally(init, statusOf).Missing(gap).Add(statusOf(last))
  }

  /** The audit of one partition: the tally of what is retained up to the committed
      offset; a trailing gap counts only if nothing is retained past it. */
  function AuditOf(records: seq<Record>, committed: int, statusOf: Record -> Status): Report {
    if committed <= 0 then Empty
    else
      var below := UpTo(records, committed);
      if |below| == |records| then Tally(below, statusOf).Missing(committed - LastOffset(below)) else Tally(below, statusOf)
  }

  // ---- The loops --------------------------------------------------------------------------

  lemma TallyStep(records: seq<Record>, statusOf: Record -> Status, n: nat)
    requires n < |records|
    ensures
      var gap := if records[n].data.source.NoSource? then records[n].offset - LastOffset(records[..n]) - 1 else 0;
      && Tally(records[..n + 1], statusOf) == Tally(records[..n], statusOf).Missing(gap).Add(statusOf(records[n]))
      && LastOffset(records[..n + 1]) == records[n].offset
  {
    assert records[..n + 1][..n] == records[..n];
  }

  /** The first n records are those up to the committed offset. */
  ghost predicate Split(records: seq<Record>, committed: int, n: nat) {
    && n <= |records| && (forall i :: 0 <= i < n ==> records[i].offset <= committed)
    && (forall i :: n <= i < |records| ==> records[i].offset > committed)
  }

  lemma {:induction false} UpToIs(records: seq<Record>, committed: int, n: nat)
    requires Split(records, committed, n)
    ensures UpTo(records, committed) == records[..n]
  {
    if records != [] {
      var last := |records| - 1;
      if n <= last {
        UpToIs(records[..last], committed, n);
        assert records[..last][..n] == records[..n];
      } else {
        UpToIs(records[..last], committed, last);
        assert records[..last][..last] + [records[last]] == records[..n];
      }
    }
  }

  lemma AfterIs(records: seq<Record>, n: nat)
    requires Retained(records) && n <= |records|
    ensures After(records, LastOffset(records[..n])) == records[n..]
  {
    AfterFrom(records, LastOffset(records[..n]), n);
  }

  /** Walk one page, tallying its first `used` records.  `over` says that the next
      one is past the committed offset. */
  method AuditPage(page: seq<Record>, committed: int, statusOf: Record -> Status, expected: int, after: int,
                   report: Report,
                   ghost records: seq<Record>, ghost n: nat)
    returns (expected': int, after': int, report': Report, used: nat, over: bool)
    requires Retained(records) && n + |page| <= |records| && page == records[n..n + |page|]
    requires report == Tally(records[..n], statusOf) && after == LastOffset(records[..n]) && expected == after + 1
    requires after <= committed
    ensures used <= |page| && report' == Tally(records[..n + used], statusOf)
    ensures over ==> used < |page| && page[used].offset > committed && expected' == committed + 1
    ensures !over ==> used == |page| && after' == LastOffset(records[..n + used]) && expected' == after' + 1 && after' <= committed
    ensures n + used > 0 ==> records[n + used - 1].offset <= committed
  {
    hide Tally, LastOffset;
    expected', after', report', used, over := expected, after, report, 0, false;
    LastIs(records, n);
    while used < |page|
      invariant 0 <= used <= |page| && !over
      invariant report' == Tally(records[..n + used], statusOf) && after' == LastOffset(records[..n + used])
      invariant expected' == after' + 1
      invariant after' <= committed && (n + used > 0 ==> records[n + used - 1].offset == after')
      invariant (n + used == 0 ==> after' == 0)
    {
      var record := page[used];
      assert record == records[n + used];
      if record.offset > committed {
        expected', over := committed + 1, true;
        return;
      }
      TallyStep(records, statusOf, n + used);
      if expected' < record.offset {
        if record.data.source.NoSource? {
          ghost var from := expected';
          ghost var base := report';
          while expected' < record.offset && expected' <= committed
            invariant from <= expected' <= record.offset && report' == base.Missing(expected' - from)
          {
            report' := report'.Missing(1);
            expected' := expected' + 1;
          }
        } else {
          expected' := record.offset;
        }
      }
      report' := report'.Add(statusOf(record));
      expected', after', used := record.offset + 1, record.offset, used + 1;
    }
  }

  lemma LastIs(records: seq<Record>, n: nat)
    requires n <= |records|
    ensures LastOffset(records[..n]) == if n == 0 then 0 else records[n - 1].offset
  {
  }

  method AuditPartition(records: seq<Record>, committed: int, batchSize: int,
                        statusOf: Record -> Status) returns (report: Report)
    requires Retained(records)
    ensures report == AuditOf(records, committed, statusOf)
  {
    hide Tally, LastOffset, UpTo, After;
    report := Empty;
    if committed <= 0 {
      return;
    }
    var after, expected := 0, 1;
    ghost var n := 0;
    NothingYet(records, statusOf);
    while expected <= committed
      invariant 0 <= n <= |records| && report == Tally(records[..n], statusOf) && after == LastOffset(records[..n])
      invariant expected == after + 1 && after <= committed && (n > 0 ==> records[n - 1].offset <= committed)
      decreases |records| - n
    {
      var page := FetchAfter(records, after, batchSize);
      AfterIs(records, n);
      assert page == records[n..n + |page|];
      if |page| == 0 {
        SplitAt(records, committed, |records|);
        UpToIs(records, committed, |records|);
        assert records[..|records|] == records && n == |records|;
        report := report.Missing(committed - expected + 1);
        return;
      }
      var used, over;
      expected, after, report, used, over := AuditPage(page, committed, statusOf, expected, after, report, records, n);
      n := n + used;
      if over {
        SplitAt(records, committed, n);
        UpToIs(records, committed, n);
        return;
      }
    }
    SplitEnd(records, committed, n);
    UpToIs(records, committed, n);
    assert records[..|records|] == records;
    assert report.Missing(0) == report;
  }

  lemma NothingYet(records: seq<Record>, statusOf: Record -> Status)
    ensures Tally(records[..0], statusOf) == Empty && LastOffset(records[..0]) == 0
  {
  }

  lemma SplitAt(records: seq<Record>, committed: int, n: nat)
    requires Retained(records) && n <= |records| && (n > 0 ==> records[n - 1].offset <= committed)
    requires n < |records| ==> records[n].offset > committed
    ensures Split(records, committed, n)
  {
  }

  lemma SplitEnd(records: seq<Record>, committed: int, n: nat)
    requires Retained(records) && n <= |records| && LastOffset(records[..n]) == committed > 0
    ensures Split(records, committed, n)
  {
  }

  // ---- Conservation -------------------------------------------------------------------------

  ghost predicate NoPhysicalPositions(records: seq<Record>) {
    forall i :: 0 <= i < |records| ==> records[i].data.source.NoSource?
  }

  lemma {:induction false} TallyTotal(records: seq<Record>, statusOf: Record -> Status)
    requires NoPhysicalPositions(records)
    ensures Tally(records, statusOf).Total() == LastOffset(records)
  {
    if records != [] {
      TallyTotal(records[..|records| - 1], statusOf);
    }
  }

  lemma {:induction false} SplitExists(records: seq<Record>, committed: int) returns (n: nat)
    requires Retained(records)
    ensures Split(records, committed, n)
  {
    n := 0;
    while n < |records| && records[n].offset <= committed
      invariant n <= |records| && forall i :: 0 <= i < n ==> records[i].offset <= committed
    {
      n := n + 1;
    }
  }

  /** Every committed offset is accounted for exactly once, if and only if the record
      at the committed offset is retained or none past it is. */
  lemma AuditConserves(records: seq<Record>, committed: int, statusOf: Record -> Status)
    requires Retained(records) && NoPhysicalPositions(records) && committed > 0
    ensures
      AuditOf(records, committed, statusOf).Total() == committed <==>
        || (exists i :: 0 <= i < |records| && records[i].offset == committed)
        || (forall i :: 0 <= i < |records| ==> records[i].offset <= committed)
    ensures AuditOf(records, committed, statusOf).Total() <= committed
  {
    hide Tally, UpTo;
    var n := SplitExists(records, committed);
    UpToIs(records, committed, n);
    TallyTotal(records[..n], statusOf);
    LastIs(records, n);
    var report := AuditOf(records, committed, statusOf);
    assert |records[..n]| == n;
    assert n == |records| ==> report.Total() == committed;
    assert n < |records| ==> records[n].offset > committed && report.Total() == LastOffset(records[..n]);
    if n > 0 {
      assert records[n - 1].offset <= committed;
    }
    if i :| 0 <= i < |records| && records[i].offset == committed {
      assert i == n - 1;
    }
  }

  /** The exception: offset 2 is committed and lost, offset 3 is retained, and the
      audit reports a complete partition. */
  lemma TrailingGapIsSkipped(first: Record, third: Record, statusOf: Record -> Status)
    requires first.offset == 1 && third.offset == 3 && first.data.source.NoSource? && statusOf(first) == WasApplied
    ensures
      var report := AuditOf([first, third], 2, statusOf);
      report == Report(1, 0, 0, 0, 0) && report.Complete() && report.Total() == 1
  {
    var records := [first, third];
    UpToIs(records, 2, 1);
    assert records[..1] == [first] && [first][..0] == [];
    assert Tally([first], statusOf) == Tally([], statusOf).Missing(0).Add(WasApplied);
  }

  // ---- What each counter counts -------------------------------------------------------------------

  /** The retained records at or below the committed offset that have this status. */
  ghost function Among(records: seq<Record>, committed: int, statusOf: Record -> Status, status: Status): set<int> {
    set i | 0 <= i < |records| && records[i].offset <= committed && statusOf(records[i]) == status
  }

  lemma AmongLast(records: seq<Record>, committed: int, statusOf: Record -> Status, status: Status)
    requires records != []
    ensures
      var n := |records| - 1;
      |Among(records, committed, statusOf, status)| ==
      |Among(records[..n], committed, statusOf, status)|
      + if records[n].offset <= committed && statusOf(records[n]) == status then 1 else 0
  {
    var n := |records| - 1;
    var some := Among(records[..n], committed, statusOf, status);
    assert Among(records, committed, statusOf, status) ==
           if records[n].offset <= committed && statusOf(records[n]) == status then some + {n} else some;
    assert n !in some;
  }

  /** The counters of a report are these. */
  ghost predicate CountsOf(report: Report, records: seq<Record>, committed: int, statusOf: Record -> Status) {
    && report.applied == |Among(records, committed, statusOf, WasApplied)|
    && report.terminal == |Among(records, committed, statusOf, WasFailed)|
    && report.retrying == |Among(records, committed, statusOf, IsRetrying)|
    && report.unmaterialized == |Among(records, committed, statusOf, Unknown)|
  }

  lemma {:induction false} TallyCounts(records: seq<Record>, committed: int, statusOf: Record -> Status)
    ensures CountsOf(Tally(UpTo(records, committed), statusOf), records, committed, statusOf)
  {
    hide Among;
    if records == [] {
      NoneAmong(committed, statusOf);
    } else {
      var n := |records| - 1;
      TallyCounts(records[..n], committed, statusOf);
      AmongLast(records, committed, statusOf, WasApplied);
      AmongLast(records, committed, statusOf, WasFailed);
      AmongLast(records, committed, statusOf, IsRetrying);
      AmongLast(records, committed, statusOf, Unknown);
      var init := UpTo(records[..n], committed);
      assert (init + [records[n]])[..|init|] == init && init + [] == init;
    }
  }

  lemma NoneAmong(committed: int, statusOf: Record -> Status)
    ensures forall status :: Among([], committed, statusOf, status) == {}
  {
  }

  lemma NothingBelow(records: seq<Record>, committed: int, statusOf: Record -> Status)
    requires Retained(records) && committed <= 0
    ensures CountsOf(Empty, records, committed, statusOf)
  {
    forall status ensures Among(records, committed, statusOf, status) == {} {
    }
  }

  /** Each counter is the number of retained records of its status at or below the
      committed offset. */
  lemma AuditCounts(records: seq<Record>, committed: int, statusOf: Record -> Status)
    requires Retained(records)
    ensures CountsOf(AuditOf(records, committed, statusOf), records, committed, statusOf)
  {
    hide Among, Tally, UpTo;
    if committed <= 0 {
      NothingBelow(records, committed, statusOf);
    } else {
      TallyCounts(records, committed, statusOf);
    }
  }

  ghost predicate HasRecord(records: seq<Record>, o: int) {
    exists i :: 0 <= i < |records| && records[i].offset == o
  }

  /** Every offset from 1 to n has a record, so the first n records are those. */
  lemma {:induction false} AllPresent(records: seq<Record>, n: nat)
    requires Retained(records) && forall o :: 1 <= o <= n ==> HasRecord(records, o)
    ensures n <= |records| && forall k :: 0 <= k < n ==> records[k].offset == k + 1
  {
    if n > 0 {
      AllPresent(records, n - 1);
      assert HasRecord(records, n);
      var i :| 0 <= i < |records| && records[i].offset == n;
      AtLeast(records, i);
    }
  }

  lemma {:induction false} AtLeast(records: seq<Record>, i: nat)
    requires Retained(records) && i < |records|
    ensures records[i].offset >= i + 1
  {
    if i > 0 {
      AtLeast(records, i - 1);
    }
  }

  /** As many records as offsets: every offset has one. */
  lemma {:induction false} NoneMissing(records: seq<Record>, n: nat)
    requires Retained(records) && n <= |records| && (n > 0 ==> records[n - 1].offset <= n)
    ensures forall k :: 0 <= k < n ==> records[k].offset == k + 1
  {
    if n > 0 {
      AtLeast(records, n - 1);
      if n > 1 {
        assert records[n - 2].offset < records[n - 1].offset;
      }
      NoneMissing(records, n - 1);
    }
  }

  /** Where the audit accounts for every offset, it reports a complete partition if and
      only if every committed offset has a record that was applied or failed for good. */
  lemma CompleteExactly(records: seq<Record>, committed: int, statusOf: Record -> Status)
    requires Retained(records) && NoPhysicalPositions(records) && committed > 0
    requires AuditOf(records, committed, statusOf).Total() == committed
    ensures AuditOf(records, committed, statusOf).Complete() <==> AllSettled(records, committed, statusOf)
  {
    hide Tally, UpTo, Among;
    var report := AuditOf(records, committed, statusOf);
    var n := SplitExists(records, committed);
    AuditCounts(records, committed, statusOf);
    CountsAdd(records, committed, statusOf, n);
    if report.Complete() {
      assert n == committed;
      NoneMissing(records, n);
      forall o | 1 <= o <= committed ensures Settled(records, statusOf, o) {
        assert records[o - 1].offset == o;
        NotAmong(records, committed, statusOf, IsRetrying, o - 1);
        NotAmong(records, committed, statusOf, Unknown, o - 1);
      }
    }
    if AllSettled(records, committed, statusOf) {
      forall o | 1 <= o <= committed ensures HasRecord(records, o) {
        assert Settled(records, statusOf, o);
      }
      AllPresent(records, committed);
      assert records[committed - 1].offset == committed;
      SettledAmong(records, committed, statusOf, IsRetrying);
      SettledAmong(records, committed, statusOf, Unknown);
    }
  }

  /** The offset has a record that was applied or failed for good. */
  ghost predicate Settled(records: seq<Record>, statusOf: Record -> Status, o: int) {
    exists i :: 0 <= i < |records| && records[i].offset == o
                && (statusOf(records[i]) == WasApplied || statusOf(records[i]) == WasFailed)
  }

  ghost predicate AllSettled(records: seq<Record>, committed: int, statusOf: Record -> Status) {
    forall o :: 1 <= o <= committed ==> Settled(records, statusOf, o)
  }

  lemma NotAmong(records: seq<Record>, committed: int, statusOf: Record -> Status, status: Status, i: nat)
    requires i < |records| && records[i].offset <= committed && |Among(records, committed, statusOf, status)| == 0
    ensures statusOf(records[i]) != status
  {
    assert i !in Among(records, committed, statusOf, status);
  }

  lemma OnlySettled(records: seq<Record>, committed: int, statusOf: Record -> Status, i: nat)
    requires Retained(records) && AllSettled(records, committed, statusOf) && i < |records|
    requires records[i].offset <= committed
    ensures statusOf(records[i]) == WasApplied || statusOf(records[i]) == WasFailed
  {
    assert Settled(records, statusOf, records[i].offset);
    var k :| 0 <= k < |records| && records[k].offset == records[i].offset
             && (statusOf(records[k]) == WasApplied || statusOf(records[k]) == WasFailed);
    assert k == i;
  }

  lemma SettledAmong(records: seq<Record>, committed: int, statusOf: Record -> Status, status: Status)
    requires Retained(records) && AllSettled(records, committed, statusOf)
    requires (status == IsRetrying || status == Unknown)
    ensures Among(records, committed, statusOf, status) == {}
  {
    forall i | 0 <= i < |records| && records[i].offset <= committed ensures statusOf(records[i]) != status {
      OnlySettled(records, committed, statusOf, i);
    }
  }

  /** The four counts make up the retained records at or below the committed offset. */
  lemma {:induction false} CountsAdd(records: seq<Record>, committed: int, statusOf: Record -> Status, n: nat)
    requires Split(records, committed, n)
    ensures |Among(records, committed, statusOf, WasApplied)| + |Among(records, committed, statusOf, WasFailed)|
            + |Among(records, committed, statusOf, IsRetrying)| + |Among(records, committed, statusOf, Unknown)| == n
  {
    hide Among;
    if records == [] {
      NoneAmong(committed, statusOf);
    } else {
      var last := |records| - 1;
      CountsAdd(records[..last], committed, statusOf, if n <= last then n else last);
      AmongLast(records, committed, statusOf, WasApplied);
      AmongLast(records, committed, statusOf, WasFailed);
      AmongLast(records, committed, statusOf, IsRetrying);
      AmongLast(records, committed, statusOf, Unknown);
    }
  }

  // ---- All partitions -------------------------------------------------------------------------

  datatype Part = Part(committed: int, records: seq<Record>)

  function AuditAllOf(parts: seq<Part>, statusOf: Record -> Status): Report {
    if parts == [] then Empty
    else AuditAllOf(parts[..|parts| - 1], statusOf).Plus(AuditOf(parts[|parts| - 1].records, parts[|parts| - 1].committed, statusOf))
  }

  method AuditOffsets(parts: seq<Part>, batchSize: int, statusOf: Record -> Status) returns (report: Report)
    requires forall i :: 0 <= i < |parts| ==> Retained(parts[i].records)
    ensures report == AuditAllOf(parts, statusOf)
  {
    hide AuditOf, Retained;
    report := Empty;
    var i := 0;
    while i < |parts|
      invariant 0 <= i <= |parts| && report == AuditAllOf(parts[..i], statusOf)
    {
      assert parts[..i + 1][..i] == parts[..i];
      var one := AuditPartition(parts[i].records, parts[i].committed, batchSize, statusOf);
      report := report.Plus(one);
      i := i + 1;
    }
    assert parts[..i] == parts;
  }

  function CommittedTotal(parts: seq<Part>): int {
    if parts == [] then 0
    else
      var c := parts[|parts| - 1].committed;
      CommittedTotal(parts[..|parts| - 1]) + if c > 0 then c else 0
  }

  ghost predicate Auditable(part: Part) {
    && Retained(part.records) && NoPhysicalPositions(part.records)
    && (part.committed <= 0
        || (exists i :: 0 <= i < |part.records| && part.records[i].offset == part.committed)
        || (forall i :: 0 <= i < |part.records| ==> part.records[i].offset <= part.committed))
  }

  /** Over all partitions the counters add up to the committed offsets. */
  lemma {:induction false} AuditAllConserves(parts: seq<Part>, statusOf: Record -> Status)
    requires forall i :: 0 <= i < |parts| ==> Auditable(parts[i])
    ensures AuditAllOf(parts, statusOf).Total() == CommittedTotal(parts)
  {
    hide AuditOf;
    if parts != [] {
      var n := |parts| - 1;
      AuditAllConserves(parts[..n], statusOf);
      assert Auditable(parts[n]);
      if parts[n].committed > 0 {
        AuditConserves(parts[n].records, parts[n].committed, statusOf);
      } else {
        AuditNothing(parts[n].records, parts[n].committed, statusOf);
      }
    }
  }

  lemma AuditNothing(records: seq<Record>, committed: int, statusOf: Record -> Status)
    requires committed <= 0
    ensures AuditOf(records, committed, statusOf) == Empty
  {
  }
}
