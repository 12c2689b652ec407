/** The cache between executing a command and deciding its events: a decision is
    remembered once and taken once. */
module DecisionCache {
  import opened LogModel
  import opened BrokerEventLog
  import C = BrokerCommandLog

  datatype NativeDecision = NativeDecision(replyId: string, events: seq<EventRecord>)

  datatype CacheKey = CacheKey(partition: Partition, offset: int)

  function KeyOf(r: C.CommandRecord): Option<CacheKey> {
    if r.offset <= 0 then None else Some(CacheKey(r.partition.Normalize(), r.offset))
  }

  /** One key for each place in the command log; none for a record that is not in it. */
  lemma KeyNames(a: C.CommandRecord, b: C.CommandRecord)
    ensures KeyOf(a).None? <==> a.offset <= 0
    ensures KeyOf(a).Some? && KeyOf(b).Some? ==>
              (KeyOf(a) == KeyOf(b) <==> a.offset == b.offset && a.partition.Normalize() == b.partition.Normalize())
  {
  }

  type Decide = C.CommandRecord -> Result<NativeDecision>

  class Executor {
    const decide: Decide
    var cache: map<CacheKey, NativeDecision>

    constructor (decide: Decide)
      ensures this.decide == decide && cache == map[]
    {
      this.decide, cache := decide, map[];
    }

    /** Every entry is what the command of that offset decides.  `log` gives the one
        command there is at each offset. */
    ghost predicate Faithful(log: CacheKey -> C.CommandRecord)
      reads this
    {
      forall k :: k in cache ==> KeyOf(log(k)) == Some(k) && decide(log(k)) == Ok(cache[k])
    }

    method Remember(r: C.CommandRecord, d: NativeDecision)
      modifies this
      ensures cache == if KeyOf(r).None? then old(cache) else old(cache)[KeyOf(r).value := d]
    {
      var key := KeyOf(r);
      if key.Some? {
        cache := cache[key.value := d];
      }
    }

    /** A decision can be taken once: the entry is gone afterwards. */
    method Take(r: C.CommandRecord) returns (d: Option<NativeDecision>)
      modifies this
      ensures
        var key := KeyOf(r);
        if key.Some? && key.value in old(cache)
        then d == Some(old(cache)[key.value]) && cache == old(cache) - {key.value}
        else d == None && cache == old(cache)
    {
      var key := KeyOf(r);
      if key.None? || key.value !in cache {
        return None;
      }
      d := Some(cache[key.value]);
      cache := cache - {key.value};
    }

    method Execute(r: C.CommandRecord, ghost log: CacheKey -> C.CommandRecord) returns (reply: Result<string>)
      requires Faithful(log) && (KeyOf(r).Some? ==> log(KeyOf(r).value) == r)
      modifies this
      ensures Faithful(log)
      ensures reply == if decide(r).Err? then Err(decide(r).error) else Ok(decide(r).value.replyId)
      ensures decide(r).Ok? && KeyOf(r).Some? ==> KeyOf(r).value in cache
    {
      var d := decide(r);
      if d.Err? {
        return Err(d.error);
      }
      Remember(r, d.value);
      return Ok(d.value.replyId);
    }

    /** The cache is invisible: with or without an entry, the events are those the
        command decides, and a reply of another decision is refused. */
    method DecideEvents(r: C.CommandRecord, replyId: string,
                        ghost log: CacheKey -> C.CommandRecord) returns (events: Result<seq<EventRecord>>)
      requires Faithful(log) && (KeyOf(r).Some? ==> log(KeyOf(r).value) == r)
      modifies this
      ensures Faithful(log) && (KeyOf(r).Some? ==> KeyOf(r).value !in cache)
      ensures events == if decide(r).Err? then Err(decide(r).error)
                        else if decide(r).value.replyId != replyId then Err(DecisionFailure)
                        else Ok(decide(r).value.events)
    {
      var cached := Take(r);
      if cached.Some? {
        if cached.value.replyId != replyId {
          return Err(DecisionFailure);
        }
        return Ok(cached.value.events);
      }
      var d := decide(r);
      if d.Err? {
        return Err(d.error);
      }
      if d.value.replyId != replyId {
        return Err(DecisionFailure);
      }
      return Ok(d.value.events);
    }
  }
}
