/** What a converted window says about the requests in it, in terms of their records. */
module BatchFacts {
  import opened Wrappers
  import opened Sequences
  import opened Cursors
  import opened Measurement
  import opened LogHash
  import opened Conversion
  import opened RequestFacts
  import opened Batches

  function OfAttempt(id: string): AttemptFact -> bool { (a: AttemptFact) => a.requestId == id }

  lemma OwnAttempts(ctx: Context, records: seq<LogInput>, own: string, id: string)
    requires Prepared(records) && Group(own, records) != []
    ensures Filter(OfAttempt(id), AllAttempts(ctx, Group(own, records))) ==
            if id == own then AllAttempts(ctx, Group(own, records)) else []
  {
    var g := Group(own, records);
    var s := AllAttempts(ctx, g);
    GroupIsGroup(own, records);
    forall i | 0 <= i < |s| ensures s[i].requestId == own { AttemptIdentified(ctx, own, g, i); }
    if id == own { FilterAll(OfAttempt(id), s); } else { FilterNone(OfAttempt(id), s); }
  }

  /** Where every name contributes attempts of its own only, collecting them mixes nothing up. */
  lemma {:induction false} CollectedFor(one: string -> Facts, ids: seq<string>, id: string)
    requires NoDup(ids)
    requires forall k <- ids :: Filter(OfAttempt(id), one(k).attempts) == if k == id then one(id).attempts else []
    ensures Filter(OfAttempt(id), Collect(one, ids).attempts) == if id in ids then one(id).attempts else []
    ensures id in ids ==> forall r <- one(id).requests :: r in Collect(one, ids).requests
  {
    if ids != [] {
      var n := |ids| - 1;
      assert ids == ids[..n] + [ids[n]];
      CollectedFor(one, ids[..n], id);
      FilterConcat(OfAttempt(id), Collect(one, ids[..n]).attempts, one(ids[n]).attempts);
    }
  }

  /** The facts built for a list of names hold those of each of its requests, and no other attempts of it. */
  lemma BuiltFor(ctx: Context, ids: seq<string>, records: seq<LogInput>, id: string)
    requires Prepared(records) && NoDup(ids) && Group(id, records) != [] && id in ids
    ensures var f := Build(ctx, ids, records);
            && Request(ctx, Group(id, records)) in f.requests
            && Filter(OfAttempt(id), f.attempts) == AllAttempts(ctx, Group(id, records))
  {
    var one := PerId(ctx, records);
    forall k | k in ids ensures Filter(OfAttempt(id), one(k).attempts) == if k == id then one(id).attempts else [] {
      if Group(k, records) != [] { OwnAttempts(ctx, records, k, id); }
    }
    CollectedFor(one, ids, id);
    assert Request(ctx, Group(id, records)) in one(id).requests;
  }

  /** Some request of the batch and its attempts, in order, say what the records show. */
  ghost predicate Told(ctx: Context, records: seq<LogInput>, id: string, b: Batch)
    requires records != []
  {
    exists r <- b.requests :: r.requestId == id && FactsSay(
      ctx, records, Map(ChannelOf, Filter(OfAttempt(id), b.attempts)), r, Filter(OfAttempt(id), b.attempts))
  }

  function ChannelOf(a: AttemptFact): int { a.channel }

  lemma ToldBy(
    ctx: Context, records: seq<LogInput>, id: string, b: Batch, tried: seq<int>, r: RequestFact, attempts: seq<AttemptFact>)
    requires records != [] && FactsSay(ctx, records, tried, r, attempts) && r in b.requests && r.requestId == id
    requires Filter(OfAttempt(id), b.attempts) == attempts && Map(ChannelOf, attempts) == tried
    ensures Told(ctx, records, id, b)
  {
  }

  lemma GroupFacts(ctx: Context, records: seq<LogInput>, id: string)
    requires IsGroup(records, id)
    ensures FactsSay(ctx, records, Channels(records), Request(ctx, records), AllAttempts(ctx, records))
    ensures Request(ctx, records).requestId == id && Map(ChannelOf, AllAttempts(ctx, records)) == Channels(records)
  {
    FactsExact(ctx, records);
    GroupComplete(ctx, id, records);
    assert Map(ChannelOf, AllAttempts(ctx, records)) == Channels(records);
  }

  lemma Assembled(ctx: Context, from: Cursor, inputs: seq<LogInput>) returns (f: Facts)
    requires Convert(ctx, from, inputs).Some?
    ensures CursorsValid(inputs) && f == Build(ctx, Ids(Valids(inputs)), Valids(inputs))
    ensures Convert(ctx, from, inputs).value.requests == f.requests && Convert(ctx, from, inputs).value.attempts == f.attempts
  {
    f := Build(ctx, Ids(Valids(inputs)), Valids(inputs));
  }

  lemma GroupTold(ctx: Context, from: Cursor, inputs: seq<LogInput>, id: string)
    requires Convert(ctx, from, inputs).Some? && Group(id, Valids(inputs)) != []
    ensures Told(ctx, Group(id, Valids(inputs)), id, Convert(ctx, from, inputs).value)
  {
    var records := Valids(inputs);
    var g, b := Group(id, records), Convert(ctx, from, inputs).value;
    var f := Assembled(ctx, from, inputs);
    ValidsPrepared(inputs);
    IdsFacts(records);
    BuiltFor(ctx, Ids(records), records, id);
    GroupIsGroup(id, records);
    GroupFacts(ctx, g, id);
    ToldBy(ctx, g, id, b, Channels(g), Request(ctx, g), AllAttempts(ctx, g));
  }

  /** A record that is set aside is quarantined at its position for its first fault. */
  predicate SetAsideFor(r: LogInput, q: QuarantineFact) {
    q.cursor == r.cursor && exists k: nat :: k < 8 && FirstFault(r, k) && q.reason == Faults(r)[k].1
  }

  predicate FirstFault(r: LogInput, k: nat)
    requires k < 8
  {
    Faults(r)[k].0 && forall j :: 0 <= j < k ==> !Faults(r)[j].0
  }

  predicate Faultless(r: LogInput) { forall k :: 0 <= k < 8 ==> !Faults(r)[k].0 }

  lemma InvalidTold(ctx: Context, r: LogInput)
    requires !Faultless(r)
    ensures SetAsideFor(r, Quarantine(ctx, r.cursor, InvalidReason(r)))
  {
    ReasonExactly(r);
    var k: nat := FirstOf(r, 8);
    assert FirstFault(r, k);
  }

  lemma {:induction false} FirstOf(r: LogInput, n: nat) returns (k: nat)
    requires n <= 8 && exists i :: 0 <= i < n && Faults(r)[i].0
    ensures k < n && FirstFault(r, k)
  {
    if i :| 0 <= i < n - 1 && Faults(r)[i].0 { k := FirstOf(r, n - 1); } else { k := n - 1; }
  }

  /**
   Every distinct record of a converted window is told exactly once: one without fault as part
   of the facts of its request, which say what all such records of that request show, and one
   with a fault by a quarantine for the first of its faults.
   */
  lemma WindowTold(ctx: Context, from: Cursor, inputs: seq<LogInput>, r: LogInput)
    requires Convert(ctx, from, inputs).Some? && r in Records(inputs)
    ensures var b := Convert(ctx, from, inputs).value;
            if Faultless(r) then
              r in Group(r.requestId, Valids(inputs)) && Told(ctx, Group(r.requestId, Valids(inputs)), r.requestId, b)
            else
              exists q <- b.quarantines :: SetAsideFor(r, q)
  {
    var b := Convert(ctx, from, inputs).value;
    ReasonExactly(r);
    FilterMembers(ValidRecord, Records(inputs));
    FilterMembers(InvalidRecord, Records(inputs));
    if Faultless(r) {
      FilterMembers(OfRequest(r.requestId), Valids(inputs));
      GroupTold(ctx, from, inputs, r.requestId);
    } else {
      InvalidTold(ctx, r);
      var i :| 0 <= i < |Invalids(inputs)| && Invalids(inputs)[i] == r;
      assert b.quarantines[i] == Quarantine(ctx, r.cursor, InvalidReason(r));
      assert b.quarantines[i] in b.quarantines;
    }
  }

  /** The group of a request is every faultless record of it, in cursor order. */
  lemma GroupExactly(inputs: seq<LogInput>, id: string)
    requires CursorsValid(inputs)
    ensures var g := Group(id, Valids(inputs));
            && (forall r :: r in g <==> r in Records(inputs) && Faultless(r) && r.requestId == id)
            && forall i, j :: 0 <= i < j < |g| ==> g[i].cursor.Compare(g[j].cursor) <= 0
  {
    ValidsPrepared(inputs);
    FilterSorted(OfRequest(id), Valids(inputs));
    FilterMembers(OfRequest(id), Valids(inputs));
    FilterMembers(ValidRecord, Records(inputs));
    var g := Group(id, Valids(inputs));
    forall r ensures r in g <==> r in Records(inputs) && Faultless(r) && r.requestId == id { ReasonExactly(r); }
    forall i, j | 0 <= i < j < |g| ensures g[i].cursor.Compare(g[j].cursor) <= 0 { assert InputLe(g[i], g[j]); }
  }
}
