/** Command-partition leases in SQL.  A claim reads a clock, upserts, and reads the
    row back; calls of different owners interleave between any two of these, and the
    upsert of a call that was given up may still land later. */
module PartitionClaim {
  import opened LogModel
  import C = BrokerCommandLog

  type Owner = string

  const DEFAULT_TTL_NANOS := 30_000_000_000
  const NANOS_PER_MS := 1_000_000

  /** A lease row, and what a caller holds when granted: [since, until). */
  datatype Lease = Lease(partition: Partition, owner: Owner, since: int, until: int)

  /** Whole milliseconds, rounded down but at least one; 30 seconds if none is asked for. */
  function TtlMillis(ttlNanos: int): (ms: int)
    ensures ms > 0
    ensures ttlNanos >= 1_000_000 ==> ms * 1_000_000 <= ttlNanos < (ms + 1) * 1_000_000
    ensures 0 < ttlNanos < 1_000_000 ==> ms == 1
    ensures ttlNanos <= 0 ==> ms == 30_000
  {
    var ttl := if ttlNanos <= 0 then DEFAULT_TTL_NANOS else ttlNanos;
    if ttl / NANOS_PER_MS <= 0 then 1 else ttl / NANOS_PER_MS
  }

  function Upsert(rows: map<Partition, Lease>, l: Lease): map<Partition, Lease> {
    if l.partition !in rows || rows[l.partition].owner == l.owner || rows[l.partition].until <= l.since
    then rows[l.partition := l] else rows
  }

  predicate Confirms(rows: map<Partition, Lease>, wanted: Lease) {
    && wanted.partition in rows && rows[wanted.partition].owner == wanted.owner
    && rows[wanted.partition].until >= wanted.until
  }

  /** The table as the claimer uses it. */
  class LeaseTable {
    var rows: map<Partition, Lease>

    constructor ()
      ensures rows == map[]
    {
      rows := map[];
    }

    /** One claim, with the upserts of other calls that land before the read-back. */
    method ClaimCommandPartition(cancelled: bool, ownerId: Owner, partition: Partition, ttlNanos: int, now: int,
                                 between: seq<Lease>)
      returns (r: Result<(Lease, bool)>)
      modifies this
      ensures r.Ok? <==> !cancelled && C.Trim(ownerId) != ""
      ensures r.Err? ==> rows == old(rows)
      ensures r.Ok? ==>
                var wanted := Lease(partition.Normalize(), C.Trim(ownerId), now, now + TtlMillis(ttlNanos));
                && rows == UpsertAll(Upsert(old(rows), wanted), between)
                && wanted.partition in rows && r.value.0 == rows[wanted.partition]
                && (r.value.1 <==> Confirms(rows, wanted))
      ensures r.Ok? && between == [] ==>
                var p, owner, until := partition.Normalize(), C.Trim(ownerId), now + TtlMillis(ttlNanos);
                if p in old(rows) && old(rows)[p].owner != owner && old(rows)[p].until > now
                then rows == old(rows) && r.value == (old(rows)[p], false)
                else rows == old(rows)[p := Lease(p, owner, now, until)] && r.value == (Lease(p, owner, now, until), true)
    {
      if cancelled {
        return Err(Cancelled);
      }
      var owner := C.Trim(ownerId);
      if owner == "" {
        return Err(OwnershipFailure);
      }
      var p := partition.Normalize();
      var expiresAt := now + TtlMillis(ttlNanos);
      rows := Upsert(rows, Lease(p, owner, now, expiresAt));
      UpsertAllKeeps(rows, between);
      rows := UpsertAll(rows, between);
      var row := rows[p];
      return Ok((row, row.owner == owner && row.until >= expiresAt));
    }
  }

  function UpsertAll(rows: map<Partition, Lease>, leases: seq<Lease>): map<Partition, Lease> {
    if leases == [] then rows else Upsert(UpsertAll(rows, leases[..|leases| - 1]), leases[|leases| - 1])
  }

  lemma {:induction false} UpsertAllKeeps(rows: map<Partition, Lease>, leases: seq<Lease>)
    ensures rows.Keys <= UpsertAll(rows, leases).Keys
  {
    if leases != [] {
      UpsertAllKeeps(rows, leases[..|leases| - 1]);
    }
  }

  // ---- Interleaved calls -------------------------------------------------------------

  datatype Call = Begun(wanted: Lease) | Written(wanted: Lease)

  /** `late` holds the upserts that were sent by calls that failed and may still land;
      `granted` remembers every lease that a call reported as acquired. */
  datatype State = State(rows: map<Partition, Lease>, clocks: map<Owner, int>, calls: map<Owner, Call>,
                         late: set<Lease>, granted: set<Lease>)

  datatype Step =
    | Tick(owner: Owner, to: int)
    | Begin(owner: Owner, partition: Partition, ttlNanos: int)
    | Write(owner: Owner)
    | ReadBack(owner: Owner)
    | Fail(owner: Owner)
    | Land(lease: Lease)

  function ClockOf(s: State, owner: Owner): int {
    if owner in s.clocks then s.clocks[owner] else 0
  }

  function Asked(s: State, owner: Owner, partition: Partition, ttlNanos: int): Lease {
    Lease(partition.Normalize(), owner, ClockOf(s, owner), ClockOf(s, owner) + TtlMillis(ttlNanos))
  }

  function Take(s: State, step: Step): Option<State> {
    match step
    case Tick(owner, to) =>
      if to < ClockOf(s, owner) then None else Some(s.(clocks := s.clocks[owner := to]))
    case Begin(owner, partition, ttlNanos) =>
      if owner in s.calls then None
      else Some(s.(calls := s.calls[owner := Begun(Asked(s, owner, partition, ttlNanos))]))
    case Write(owner) =>
      if owner !in s.calls || !s.calls[owner].Begun? then None
      else
        var l := s.calls[owner].wanted;
        Some(s.(rows := Upsert(s.rows, l), calls := s.calls[owner := Written(l)]))
    case ReadBack(owner) =>
      if owner !in s.calls || !s.calls[owner].Written? then None
      else
        var l := s.calls[owner].wanted;
        var s' := s.(calls := s.calls - {owner});
        Some(if Confirms(s.rows, l) then s'.(granted := s.granted + {l.(until := s.rows[l.partition].until)}) else s')
    case Fail(owner) =>
      Some(s.(calls := s.calls - {owner},
              late := if owner in s.calls && s.calls[owner].Begun? then s.late + {s.calls[owner].wanted} else s.late))
    case Land(lease) =>
      if lease !in s.late then None else Some(s.(rows := Upsert(s.rows, lease), late := s.late - {lease}))
  }

  const Init := State(map[], map[], map[], {}, {})

  ghost predicate Run(states: seq<State>, steps: seq<Step>) {
    && |states| == |steps| + 1 && states[0] == Init
    && forall i :: 0 <= i < |steps| ==> Take(states[i], steps[i]) == Some(states[i + 1])
  }

  predicate Disjoint(a: Lease, b: Lease) {
    a.until <= b.since || b.until <= a.since
  }

  // ---- What holds whatever owners ask for --------------------------------------------------

  ghost predicate LeaseSound(s: State, l: Lease) {
    l.partition.Normal() && 0 <= l.since < l.until && l.since <= ClockOf(s, l.owner)
  }

  /** A call asks from its own clock on, and nothing older of its owner asks from later. */
  ghost predicate CallSound(s: State, owner: Owner, call: Call) {
    && LeaseSound(s, call.wanted) && call.wanted.owner == owner
    && (forall p :: p in s.rows && s.rows[p].owner == owner ==> s.rows[p].since <= call.wanted.since)
    && (forall l :: l in s.late && l.owner == owner ==> l.since <= call.wanted.since)
  }

  ghost predicate Basic(s: State) {
    && (forall o :: o in s.clocks ==> 0 <= s.clocks[o])
    && (forall p :: p in s.rows ==> s.rows[p].partition == p && LeaseSound(s, s.rows[p]))
    && (forall l :: l in s.late ==> LeaseSound(s, l))
    && (forall g :: g in s.granted ==> LeaseSound(s, g) && g.partition in s.rows)
    && (forall o :: o in s.calls ==> CallSound(s, o, s.calls[o]))
  }

  lemma BasicKeeps(s: State, s': State, step: Step)
    requires Basic(s) && Take(s, step) == Some(s')
    ensures Basic(s')
  {
    hide Basic;
    match step {
      case Tick(owner, to) => TickBasic(s, s', owner, to);
      case Begin(owner, partition, ttlNanos) => BeginBasic(s, s', step);
      case Write(owner) => WriteBasic(s, s', owner);
      case ReadBack(owner) => ReadBackBasic(s, s', owner);
      case Fail(owner) => FailBasic(s, s', owner);
      case Land(lease) => LandBasic(s, s', lease);
    }
  }

  lemma TickBasic(s: State, s': State, owner: Owner, to: int)
    requires Basic(s) && Take(s, Tick(owner, to)) == Some(s')
    ensures Basic(s')
  {
    hide LeaseSound;
    forall l | LeaseSound(s, l) ensures LeaseSound(s', l) {
      LaterClock(s, s', l);
    }
    forall o | o in s'.calls ensures CallSound(s', o, s'.calls[o]) {
      assert CallSound(s, o, s.calls[o]);
    }
  }

  lemma BeginBasic(s: State, s': State, step: Step)
    requires Basic(s) && step.Begin? && Take(s, step) == Some(s')
    ensures Basic(s')
  {
    hide TtlMillis, LeaseSound;
    forall l | LeaseSound(s, l) ensures LeaseSound(s', l) {
      LaterClock(s, s', l);
    }
    AskedSound(s, step.owner, step.partition, step.ttlNanos);
    forall o | o in s'.calls ensures CallSound(s', o, s'.calls[o]) {
      if o != step.owner {
        assert CallSound(s, o, s.calls[o]);
      } else {
        LaterClock(s, s', Asked(s, step.owner, step.partition, step.ttlNanos));
      }
    }
  }

  lemma AskedSound(s: State, owner: Owner, partition: Partition, ttlNanos: int)
    requires Basic(s)
    ensures
      var l := Asked(s, owner, partition, ttlNanos);
      && LeaseSound(s, l)
      && (forall p :: p in s.rows && s.rows[p].owner == owner ==> s.rows[p].since <= l.since)
      && (forall k :: k in s.late && k.owner == owner ==> k.since <= l.since)
  {
    hide TtlMillis;
  }

  lemma ReadBackBasic(s: State, s': State, owner: Owner)
    requires Basic(s) && Take(s, ReadBack(owner)) == Some(s')
    ensures Basic(s')
  {
    hide LeaseSound;
    var l := s.calls[owner].wanted;
    assert CallSound(s, owner, s.calls[owner]);
    forall k | LeaseSound(s, k) ensures LeaseSound(s', k) {
      LaterClock(s, s', k);
    }
    if Confirms(s.rows, l) {
      Extended(s, l, s.rows[l.partition].until);
    }
    forall o | o in s'.calls ensures CallSound(s', o, s'.calls[o]) {
      assert CallSound(s, o, s.calls[o]);
    }
  }

  lemma Extended(s: State, l: Lease, until: int)
    requires LeaseSound(s, l) && l.until <= until
    ensures LeaseSound(s, l.(until := until))
  {
  }

  lemma FailBasic(s: State, s': State, owner: Owner)
    requires Basic(s) && Take(s, Fail(owner)) == Some(s')
    ensures Basic(s')
  {
    hide LeaseSound;
    if owner in s.calls {
      assert CallSound(s, owner, s.calls[owner]);
    }
    forall l | LeaseSound(s, l) ensures LeaseSound(s', l) {
      LaterClock(s, s', l);
    }
    forall o | o in s'.calls ensures CallSound(s', o, s'.calls[o]) {
      assert CallSound(s, o, s.calls[o]);
    }
  }

  lemma WriteBasic(s: State, s': State, owner: Owner)
    requires Basic(s) && Take(s, Write(owner)) == Some(s')
    ensures Basic(s')
  {
    hide LeaseSound;
    assert CallSound(s, owner, s.calls[owner]);
    forall l | LeaseSound(s, l) ensures LeaseSound(s', l) {
      LaterClock(s, s', l);
    }
    forall o | o in s'.calls ensures CallSound(s', o, s'.calls[o]) {
      assert CallSound(s, o, s.calls[o]);
    }
  }

  lemma LandBasic(s: State, s': State, lease: Lease)
    requires Basic(s) && Take(s, Land(lease)) == Some(s')
    ensures Basic(s')
  {
    hide LeaseSound;
    forall l | LeaseSound(s, l) ensures LeaseSound(s', l) {
      LaterClock(s, s', l);
    }
    forall o | o in s'.calls ensures CallSound(s', o, s'.calls[o]) {
      assert CallSound(s, o, s.calls[o]);
    }
  }

  lemma LaterClock(s: State, s': State, l: Lease)
    requires LeaseSound(s, l) && ClockOf(s, l.owner) <= ClockOf(s', l.owner)
    ensures LeaseSound(s', l)
  {
  }

  // ---- Exclusion, and exactly when it is lost -----------------------------------------------

  /** Everyone else's leases on this partition end before the owner of its row can ask
      from: on its clock, and in the call it has under way. */
  ghost predicate Clear(s: State, g: Lease, owner: Owner) {
    g.owner != owner ==>
      && g.until <= ClockOf(s, owner)
      && (owner in s.calls && s.calls[owner].wanted.partition == g.partition ==> g.until <= s.calls[owner].wanted.since)
  }

  /** Granted leases end no later than the row, and those of different owners are
      disjoint. */
  ghost predicate Exclusive(s: State) {
    && (forall g :: g in s.granted ==>
          g.partition in s.rows && g.until <= s.rows[g.partition].until && Clear(s, g, s.rows[g.partition].owner))
    && (forall a, b :: a in s.granted && b in s.granted && a.partition == b.partition && a.owner != b.owner ==> Disjoint(a, b))
  }

  /** The lease that this step writes into its row, if it writes. */
  function Writes(s: State, step: Step): Option<Lease> {
    if step.Write? && step.owner in s.calls && s.calls[step.owner].Begun? then Some(s.calls[step.owner].wanted)
    else if step.Land? && step.lease in s.late then Some(step.lease)
    else None
  }

  /** This write takes effect, in time or late, and ends before a granted lease does. */
  ghost predicate Shortens(s: State, step: Step) {
    && Writes(s, step).Some?
    && var l := Writes(s, step).value;
    && Upsert(s.rows, l) == s.rows[l.partition := l]
    && exists g :: g in s.granted && g.partition == l.partition && l.until < g.until
  }

  /** A write that takes effect over another owner's row asks from after it. */
  lemma WriteKeeps(s: State, s': State, l: Lease)
    requires Basic(s) && Exclusive(s) && LeaseSound(s, l)
    requires s'.rows == Upsert(s.rows, l) && s'.clocks == s.clocks && s'.granted == s.granted
    requires forall o :: o in s'.calls ==> o in s.calls && s'.calls[o].wanted == s.calls[o].wanted
    requires l.owner in s.calls ==> l.since <= s.calls[l.owner].wanted.since
    requires Upsert(s.rows, l) == s.rows[l.partition := l] ==>
               forall g :: g in s.granted && g.partition == l.partition ==> g.until <= l.until
    ensures Exclusive(s')
  {
    forall g | g in s'.granted
      ensures g.partition in s'.rows && g.until <= s'.rows[g.partition].until
      ensures Clear(s', g, s'.rows[g.partition].owner)
    {
      var row := s.rows[g.partition];
      assert g.until <= row.until && Clear(s, g, row.owner);
    }
  }

  lemma ReadBackKeeps(s: State, s': State, owner: Owner)
    requires Basic(s) && Exclusive(s) && Take(s, ReadBack(owner)) == Some(s')
    ensures Exclusive(s')
  {
    hide LeaseSound;
    var l := s.calls[owner].wanted;
    assert CallSound(s, owner, s.calls[owner]);
    forall g | g in s.granted ensures Clear(s', g, s.rows[g.partition].owner) {
      assert Clear(s, g, s.rows[g.partition].owner);
    }
    if Confirms(s.rows, l) {
      forall g | g in s.granted && g.partition == l.partition && g.owner != owner ensures g.until <= l.since {
        assert Clear(s, g, s.rows[g.partition].owner);
      }
    }
  }

  lemma OtherKeeps(s: State, s': State, step: Step)
    requires Basic(s) && Exclusive(s) && Take(s, step) == Some(s') && (step.Tick? || step.Begin? || step.Fail?)
    ensures Exclusive(s')
  {
    hide LeaseSound, TtlMillis;
    forall g | g in s'.granted ensures Clear(s', g, s'.rows[g.partition].owner) {
      assert Clear(s, g, s.rows[g.partition].owner);
    }
  }

  lemma StepKeeps(s: State, s': State, step: Step)
    requires Basic(s) && Exclusive(s) && Take(s, step) == Some(s') && !Shortens(s, step)
    ensures Basic(s') && Exclusive(s')
  {
    hide Basic, Exclusive, Upsert;
    BasicKeeps(s, s', step);
    match step {
      case Write(owner) =>
        WantedSound(s, owner);
        WriteKeeps(s, s', s.calls[owner].wanted);
      case Land(lease) =>
        LateSound(s, lease);
        WriteKeeps(s, s', lease);
      case ReadBack(owner) => ReadBackKeeps(s, s', owner);
      case _ => OtherKeeps(s, s', step);
    }
  }

  lemma WantedSound(s: State, owner: Owner)
    requires Basic(s) && owner in s.calls
    ensures LeaseSound(s, s.calls[owner].wanted) && s.calls[owner].wanted.owner == owner
  {
    assert CallSound(s, owner, s.calls[owner]);
  }

  lemma LateSound(s: State, lease: Lease)
    requires Basic(s) && lease in s.late
    ensures LeaseSound(s, lease) && (lease.owner in s.calls ==> lease.since <= s.calls[lease.owner].wanted.since)
  {
    if lease.owner in s.calls {
      assert CallSound(s, lease.owner, s.calls[lease.owner]);
    }
  }

  ghost predicate NeverShortens(states: seq<State>, steps: seq<Step>, n: nat) {
    n <= |steps| && n <= |states| && forall j :: 0 <= j < n ==> !Shortens(states[j], steps[j])
  }

  lemma {:induction false} RunKeeps(states: seq<State>, steps: seq<Step>, i: nat)
    requires Run(states, steps) && i < |states| && NeverShortens(states, steps, i)
    ensures Basic(states[i]) && Exclusive(states[i])
  {
    hide Take, Shortens, Basic, Exclusive;
    if i == 0 {
      InitHolds();
    } else {
      RunKeeps(states, steps, i - 1);
      StepKeeps(states[i - 1], states[i], steps[i - 1]);
    }
  }

  lemma InitHolds()
    ensures Basic(Init) && Exclusive(Init)
  {
  }

  /** Exclusion: as long as no write shortens a lease its owner was granted, leases
      granted to different owners never overlap. */
  lemma GrantsNeverOverlap(states: seq<State>, steps: seq<Step>, i: nat, a: Lease, b: Lease)
    requires Run(states, steps) && i < |states| && NeverShortens(states, steps, i)
    requires a in states[i].granted && b in states[i].granted && a.partition == b.partition && a.owner != b.owner
    ensures Disjoint(a, b)
  {
    RunKeeps(states, steps, i);
  }

  function TakeAll(s: State, steps: seq<Step>): Option<State>
    decreases |steps|
  {
    if steps == [] then Some(s)
    else
      var s' := Take(s, steps[0]);
      if s'.None? then None else TakeAll(s'.value, steps[1..])
  }

  function Claiming(owner: Owner, p: Partition, ttlNanos: int): seq<Step> {
    [Begin(owner, p, ttlNanos), Write(owner), ReadBack(owner)]
  }

  /** A claim that meets no other call and finds the row free or its own is granted. */
  lemma ClaimIsGranted(s: State, owner: Owner, p: Partition, ttlNanos: int)
    requires p.Normal() && owner !in s.calls
    requires p in s.rows ==> s.rows[p].owner == owner || s.rows[p].until <= ClockOf(s, owner)
    ensures
      var l := Asked(s, owner, p, ttlNanos);
      TakeAll(s, Claiming(owner, p, ttlNanos)) == Some(s.(rows := s.rows[p := l], granted := s.granted + {l}))
  {
    hide TtlMillis, TakeAll;
    var l := Asked(s, owner, p, ttlNanos);
    var s1 := s.(calls := s.calls[owner := Begun(l)]);
    var s2 := s1.(rows := s.rows[p := l], calls := s1.calls[owner := Written(l)]);
    var s3 := s2.(calls := s2.calls - {owner}, granted := s.granted + {l});
    assert Take(s, Begin(owner, p, ttlNanos)) == Some(s1);
    assert Take(s1, Write(owner)) == Some(s2);
    assert Take(s2, ReadBack(owner)) == Some(s3);
    assert s3.calls == s.calls;
    ThreeSteps(s, s1, s2, s3, Claiming(owner, p, ttlNanos));
  }

  lemma ThreeSteps(s0: State, s1: State, s2: State, s3: State, steps: seq<Step>)
    requires |steps| == 3 && Take(s0, steps[0]) == Some(s1) && Take(s1, steps[1]) == Some(s2)
    requires Take(s2, steps[2]) == Some(s3)
    ensures TakeAll(s0, steps) == Some(s3)
  {
    hide Take;
    assert steps[1..][0] == steps[1] && steps[1..][1..] == [steps[2]];
    assert TakeAll(s2, [steps[2]]) == Some(s3);
  }

  ghost predicate Overlap(s: State) {
    exists a, b :: a in s.granted && b in s.granted && a.partition == b.partition && a.owner != b.owner && !Disjoint(a, b)
  }

  /** The condition is exact: after the first write of a run that ends before a granted
      lease does, any owner that has not called before can go on to be granted a lease
      that overlaps it. */
  lemma ShorteningOverlaps(states: seq<State>, steps: seq<Step>, i: nat, other: Owner, ttlNanos: int) returns (at: int)
    requires Run(states, steps) && i < |steps| && NeverShortens(states, steps, i) && Shortens(states[i], steps[i])
    requires other !in states[i].clocks && other !in states[i].calls && forall g :: g in states[i].granted ==>
              g.owner != other
    ensures
      var l := Writes(states[i], steps[i]).value;
      var ticked := Take(states[i + 1], Tick(other, at));
      && ticked.Some?
      && var later := TakeAll(ticked.value, Claiming(other, l.partition, ttlNanos));
      later.Some? && Overlap(later.value)
  {
    hide TakeAll, TtlMillis, Exclusive;
    RunKeeps(states, steps, i);
    var s, l := states[i], Writes(states[i], steps[i]).value;
    if steps[i].Write? {
      WantedSound(s, steps[i].owner);
    }
    assert LeaseSound(s, l);
    assert Take(states[i], steps[i]) == Some(states[i + 1]);
    var g :| g in s.granted && g.partition == l.partition && l.until < g.until;
    at := if l.until > g.since then l.until else g.since;
    GrantedInside(states[i + 1], l, g, other, ttlNanos, at);
  }

  /** The written row ends at l.until, so a claim made then is granted before g ends. */
  lemma GrantedInside(s: State, l: Lease, g: Lease, other: Owner, ttlNanos: int, at: int)
    requires l.partition.Normal() && l.partition in s.rows && s.rows[l.partition] == l && 0 < l.until
    requires g in s.granted && g.owner != other && g.partition == l.partition && l.until < g.until && g.since < g.until
    requires other !in s.clocks && other !in s.calls && at == if l.until > g.since then l.until else g.since
    ensures
      var ticked := Take(s, Tick(other, at));
      && ticked.Some?
      && var later := TakeAll(ticked.value, Claiming(other, l.partition, ttlNanos));
      later.Some? && Overlap(later.value)
  {
    hide TakeAll, TtlMillis;
    var ticked := s.(clocks := s.clocks[other := at]);
    assert Take(s, Tick(other, at)) == Some(ticked);
    ClaimIsGranted(ticked, other, l.partition, ttlNanos);
    var later := TakeAll(ticked, Claiming(other, l.partition, ttlNanos)).value;
    assert g in later.granted && Asked(ticked, other, l.partition, ttlNanos) in later.granted;
  }

  // ---- What a caller can do about it ------------------------------------------------------------

  /** No owner asks for less than it was already granted on the partition. */
  ghost predicate NeverAsksForLess(states: seq<State>, steps: seq<Step>) {
    forall i, g :: 0 <= i < |steps| && i < |states| && steps[i].Begin? && g in states[i].granted && g.owner == steps[i].owner
                   && g.partition == steps[i].partition.Normalize() ==>
      g.until <= ClockOf(states[i], steps[i].owner) + TtlMillis(steps[i].ttlNanos)
  }

  /** No upsert lands after its call was given up. */
  ghost predicate NoneLandLate(steps: seq<Step>) {
    forall i :: 0 <= i < |steps| ==> !steps[i].Land?
  }

  ghost predicate Ahead(s: State) {
    forall o, g :: o in s.calls && g in s.granted && g.owner == o && g.partition == s.calls[o].wanted.partition ==>
      g.until <= s.calls[o].wanted.until
  }

  lemma AheadKeeps(s: State, s': State, step: Step)
    requires Basic(s) && Ahead(s) && Take(s, step) == Some(s')
    requires step.Begin? ==> forall g :: g in s.granted && g.owner == step.owner && g.partition == step.partition.Normalize() ==>
               g.until <= ClockOf(s, step.owner) + TtlMillis(step.ttlNanos)
    ensures Ahead(s')
  {
    hide TtlMillis, LeaseSound;
    if step.ReadBack? {
      assert CallSound(s, step.owner, s.calls[step.owner]);
    }
  }

  /** Asking for no less than what was granted is enough, as long as nothing lands late. */
  lemma {:induction false} AskingForMoreIsSafe(states: seq<State>, steps: seq<Step>, i: nat)
    requires Run(states, steps) && i < |states| && NeverAsksForLess(states, steps) && NoneLandLate(steps)
    ensures NeverShortens(states, steps, i) && Basic(states[i]) && Exclusive(states[i]) && Ahead(states[i])
  {
    hide Take, Basic, Exclusive, TtlMillis, Shortens;
    if i == 0 {
      InitHolds();
    } else {
      AskingForMoreIsSafe(states, steps, i - 1);
      AheadNotShort(states[i - 1], steps[i - 1]);
      StepKeeps(states[i - 1], states[i], steps[i - 1]);
      AheadKeeps(states[i - 1], states[i], steps[i - 1]);
    }
  }

  lemma AheadNotShort(s: State, step: Step)
    requires Basic(s) && Exclusive(s) && Ahead(s) && !step.Land?
    ensures !Shortens(s, step)
  {
    if step.Write? && step.owner in s.calls {
      var l := s.calls[step.owner].wanted;
      assert CallSound(s, step.owner, s.calls[step.owner]);
      forall g | g in s.granted && g.partition == l.partition && Upsert(s.rows, l) == s.rows[l.partition := l]
        ensures g.until <= l.until
      {
        var row := s.rows[g.partition];
        assert g.until <= row.until && Clear(s, g, row.owner);
      }
    }
  }

  /** Each owner always asks for the same time to live. */
  ghost predicate ConstantTtl(steps: seq<Step>, ttl: Owner -> int) {
    forall i :: 0 <= i < |steps| && steps[i].Begin? ==> steps[i].ttlNanos == ttl(steps[i].owner)
  }

  ghost predicate Timed(ttl: Owner -> int, l: Lease) {
    l.until == l.since + TtlMillis(ttl(l.owner))
  }

  ghost predicate AllTimed(ttl: Owner -> int, s: State) {
    && (forall o :: o in s.calls ==> Timed(ttl, s.calls[o].wanted))
    && (forall p :: p in s.rows ==> Timed(ttl, s.rows[p]))
    && (forall l :: l in s.late ==> Timed(ttl, l))
    && (forall g :: g in s.granted ==> Timed(ttl, g))
  }

  lemma TimedKeeps(ttl: Owner -> int, s: State, s': State, step: Step)
    requires Basic(s) && AllTimed(ttl, s) && Take(s, step) == Some(s')
    requires step.Begin? ==> step.ttlNanos == ttl(step.owner)
    ensures AllTimed(ttl, s')
  {
    hide TtlMillis, LeaseSound;
    if step.ReadBack? {
      var l := s.calls[step.owner].wanted;
      assert CallSound(s, step.owner, s.calls[step.owner]);
      if Confirms(s.rows, l) {
        assert Timed(ttl, s.rows[l.partition]);
        assert l.(until := s.rows[l.partition].until) == l;
      }
    }
  }

  /** A constant time to live on a clock that never goes back asks for no less. */
  lemma {:induction false} ConstantTtlIsSafe(ttl: Owner -> int, states: seq<State>, steps: seq<Step>, i: nat)
    requires Run(states, steps) && i < |states| && ConstantTtl(steps, ttl)
    ensures Basic(states[i]) && AllTimed(ttl, states[i])
    ensures i < |steps| && steps[i].Begin? ==>
              forall g :: g in states[i].granted && g.owner == steps[i].owner ==>
                g.until <= ClockOf(states[i], steps[i].owner) + TtlMillis(steps[i].ttlNanos)
  {
    hide Take, TtlMillis, CallSound;
    if i == 0 {
      InitHolds();
    } else {
      ConstantTtlIsSafe(ttl, states, steps, i - 1);
      BasicKeeps(states[i - 1], states[i], steps[i - 1]);
      TimedKeeps(ttl, states[i - 1], states[i], steps[i - 1]);
    }
  }

  /** So leases of different owners never overlap when each owner keeps its time to
      live and no upsert lands after its call was given up. */
  lemma ConstantTtlExcludes(ttl: Owner -> int, states: seq<State>, steps: seq<Step>, i: nat, a: Lease, b: Lease)
    requires Run(states, steps) && i < |states| && ConstantTtl(steps, ttl) && NoneLandLate(steps)
    requires a in states[i].granted && b in states[i].granted && a.partition == b.partition && a.owner != b.owner
    ensures Disjoint(a, b)
  {
    hide Take, TtlMillis, Basic, AllTimed;
    forall k, g | 0 <= k < |steps| && k < |states| && steps[k].Begin? && g in states[k].granted && g.owner == steps[k].owner
                  && g.partition == steps[k].partition.Normalize()
      ensures g.until <= ClockOf(states[k], steps[k].owner) + TtlMillis(steps[k].ttlNanos)
    {
      ConstantTtlIsSafe(ttl, states, steps, k);
    }
    AskingForMoreIsSafe(states, steps, i);
    GrantsNeverOverlap(states, steps, i, a, b);
  }

  /** A constant time to live is not enough by itself.  An owner gives up a claim whose
      upsert is on its way, claims again later and is granted; the old upsert lands on its
      own row and ends it early; another owner is granted the rest. */
  lemma LateUpsertOverlaps(p: Partition)
    requires p.Normal()
    ensures
      var ttl := 30_000_000;
      var s1 := TakeAll(Init, [Begin("a", p, ttl), Fail("a"), Tick("a", 10)]);
      && s1.Some?
      && var s2 := TakeAll(s1.value, Claiming("a", p, ttl));
      && s2.Some?
      && var s3 := TakeAll(s2.value, [Land(Lease(p, "a", 0, 30)), Tick("b", 30)]);
      && s3.Some?
      && var s4 := TakeAll(s3.value, Claiming("b", p, ttl));
      && s4.Some?
      && Lease(p, "a", 10, 40) in s4.value.granted && Lease(p, "b", 30, 60) in s4.value.granted
  {
    hide TakeAll;
    var ttl := 30_000_000;
    var l := Lease(p, "a", 0, 30);
    var begun := Init.(calls := map["a" := Begun(l)]);
    var failed := Init.(late := {l});
    var s1 := failed.(clocks := map["a" := 10]);
    assert begun.calls - {"a"} == map[] && {} + {l} == {l};
    assert Take(Init, Begin("a", p, ttl)) == Some(begun);
    assert Take(begun, Fail("a")) == Some(failed);
    ThreeSteps(Init, begun, failed, s1, [Begin("a", p, ttl), Fail("a"), Tick("a", 10)]);
    ClaimIsGranted(s1, "a", p, ttl);
    var s2 := TakeAll(s1, Claiming("a", p, ttl)).value;
    var landed := s2.(rows := s2.rows[p := l], late := s2.late - {l});
    var s3 := landed.(clocks := landed.clocks["b" := 30]);
    TwoSteps(s2, landed, s3, [Land(l), Tick("b", 30)]);
    ClaimIsGranted(s3, "b", p, ttl);
  }

  lemma TwoSteps(s0: State, s1: State, s2: State, steps: seq<Step>)
    requires |steps| == 2 && Take(s0, steps[0]) == Some(s1) && Take(s1, steps[1]) == Some(s2)
    ensures TakeAll(s0, steps) == Some(s2)
  {
    hide Take;
    assert steps[1..] == [steps[1]];
    assert TakeAll(s1, [steps[1]]) == Some(s2);
  }

  /** The failure at an input: an owner that renews with a shorter time to live, and
      the next owner. */
  lemma ShorterRenewalOverlaps(p: Partition)
    requires p.Normal()
    ensures
      var one := TakeAll(Init, Claiming("a", p, 100_000_000));
      && one.Some?
      && var two := TakeAll(one.value, Claiming("a", p, 1_000_000));
      && two.Some?
      && var later := Take(two.value, Tick("b", 50));
      && later.Some?
      && var three := TakeAll(later.value, Claiming("b", p, 1_000_000));
      && three.Some?
      && Lease(p, "a", 0, 100) in three.value.granted && Lease(p, "b", 50, 51) in three.value.granted
  {
    hide TakeAll;
    ClaimIsGranted(Init, "a", p, 100_000_000);
    var one := TakeAll(Init, Claiming("a", p, 100_000_000)).value;
    ClaimIsGranted(one, "a", p, 1_000_000);
    var two := TakeAll(one, Claiming("a", p, 1_000_000)).value;
    ClaimIsGranted(Take(two, Tick("b", 50)).value, "b", p, 1_000_000);
  }
}
