/** One execution of an evaluation run: reserve, probe and record sample by sample. */
module EvaluationRun {
  import opened Wrappers
  import opened Sequences
  import opened EvaluationPlan
  import opened EvaluationProtocol

  /** Key and index identify a sample of the run. */
  type Identity = (string, nat)

  function IdentityOf(p: Probe): Identity { (p.key, p.index) }

  /** The stored run and its samples, and the probes that left for the supplier. */
  class RunRecord {
    const planned: nat
    /** Over a reliable connection no reply is lost and every probe is answered. */
    const reliable: bool
    var status: Status
    var samples: map<Identity, Sample>
    ghost var sent: seq<Identity>

    constructor (planned: nat, reliable: bool, status: Status, samples: map<Identity, Sample>)
      ensures this.planned == planned && this.reliable == reliable
      ensures this.status == status && this.samples == samples && sent == []
    {
      this.reliable := reliable;
      this.planned, this.status, this.samples, this.sent := planned, status, samples, [];
    }

    /** Inserts an open sample unless there is one; the reply may be lost. */
    method Reserve(p: Probe) returns (r: Option<bool>)
      modifies this`samples
      ensures samples == old(samples) || Added(old(samples), samples, p)
      ensures r == Some(true) ==> Added(old(samples), samples, p)
      ensures r == Some(false) ==> samples == old(samples) && IdentityOf(p) in samples
      ensures reliable ==> r == Some(IdentityOf(p) !in old(samples))
    {
      if IdentityOf(p) in samples { return Some(false); }
      var lost: bool := *;
      if lost && !reliable { return None; }
      samples := samples[IdentityOf(p) := Sample(p.variant, false)];
      lost := *;
      if lost && !reliable { return None; }
      r := Some(true);
    }

    method SendProbe(p: Probe) returns (ok: bool)
      modifies this`sent
      ensures sent == old(sent) + [IdentityOf(p)]
      ensures reliable ==> ok
    {
      sent := sent + [IdentityOf(p)];
      ok := true;
      if !reliable { ok := *; }
    }

    /** Stores an outcome on an open reservation only. */
    method Complete(id: Identity) returns (ok: bool)
      modifies this`samples
      ensures samples.Keys == old(samples).Keys
      ensures forall k <- samples :: k != id ==> samples[k] == old(samples)[k]
      ensures id in samples ==> samples[id].variant == old(samples)[id].variant && (old(samples)[id].done ==> samples[id].done)
      ensures ok ==> id in samples && samples[id].done
      ensures reliable ==> (ok <==> id in old(samples) && !old(samples)[id].done)
    {
      if id !in samples || samples[id].done { return false; }
      var lost: bool := *;
      if lost && !reliable { return false; }
      samples := samples[id := samples[id].(done := true)];
      ok := true;
      if !reliable { ok := *; }
    }

    method Fail(status: Status)
      modifies this`status
      ensures this.status == if Unfinished(old(this.status)) then status else old(this.status)
    {
      if Unfinished(this.status) { this.status := status; }
    }
  }

  predicate Added(before: map<Identity, Sample>, after: map<Identity, Sample>, p: Probe) {
    IdentityOf(p) !in before && after == before[IdentityOf(p) := Sample(p.variant, false)]
  }

  function IdentitySet(plan: seq<Probe>): set<Identity> { set i | 0 <= i < |plan| :: IdentityOf(plan[i]) }

  lemma IdentitySnoc(plan: seq<Probe>, i: nat)
    requires i < |plan|
    ensures IdentitySet(plan[..i + 1]) == IdentitySet(plan[..i]) + {IdentityOf(plan[i])}
    ensures DistinctProbes(plan) ==> IdentityOf(plan[i]) !in IdentitySet(plan[..i])
  {
  }

  /** The probes sent since `before` are new samples of the plan, each sent once. */
  ghost predicate SentOnce(before: seq<Identity>, after: seq<Identity>, known: set<Identity>, plan: seq<Probe>) {
    && before <= after
    && NoDup(after[|before|..])
    && forall k :: |before| <= k < |after| ==> after[k] in IdentitySet(plan) && after[k] !in known
  }

  lemma SentOneMore(
    before: seq<Identity>, after: seq<Identity>, known: set<Identity>, plan: seq<Probe>, i: nat)
    requires i < |plan| && DistinctProbes(plan) && SentOnce(before, after, known, plan[..i])
    requires IdentityOf(plan[i]) !in known
    ensures SentOnce(before, after + [IdentityOf(plan[i])], known, plan[..i + 1])
  {
    IdentitySnoc(plan, i);
    var id := IdentityOf(plan[i]);
    var news := after[|before|..];
    assert (after + [id])[|before|..] == news + [id];
    forall k | 0 <= k < |news| ensures news[k] != id { assert news[k] == after[|before| + k]; }
  }

  lemma SentStill(before: seq<Identity>, after: seq<Identity>, known: set<Identity>, plan: seq<Probe>, i: nat)
    requires i < |plan| && SentOnce(before, after, known, plan[..i])
    ensures SentOnce(before, after, known, plan[..i + 1])
  {
    IdentitySnoc(plan, i);
  }

  lemma SentAll(before: seq<Identity>, after: seq<Identity>, known: set<Identity>, plan: seq<Probe>, i: nat)
    requires i <= |plan| && SentOnce(before, after, known, plan[..i])
    ensures SentOnce(before, after, known, plan)
    decreases |plan| - i
  {
    if i < |plan| {
      SentStill(before, after, known, plan, i);
      SentAll(before, after, known, plan, i + 1);
    } else {
      assert plan[..i] == plan;
    }
  }

  /** Reserves one sample and, when the reservation is this worker's, sends the probe and records the answer. */
  method ExecuteProbe(record: RunRecord, p: Probe) returns (ok: bool)
    modifies record`samples, record`sent
    ensures record.sent == old(record.sent) || record.sent == old(record.sent) + [IdentityOf(p)]
    ensures IdentityOf(p) in old(record.samples) ==> record.sent == old(record.sent)
    ensures old(record.samples).Keys <= record.samples.Keys <= old(record.samples).Keys + {IdentityOf(p)}
    ensures ok ==> IdentityOf(p) in record.samples
    ensures forall k <- old(record.samples) :: record.samples[k] == old(record.samples)[k]
    ensures record.reliable && IdentityOf(p) !in old(record.samples) ==>
              && ok && record.sent == old(record.sent) + [IdentityOf(p)]
              && record.samples == old(record.samples)[IdentityOf(p) := Sample(p.variant, true)]
  {
    var reserved := record.Reserve(p);
    if reserved.None? { return false; }
    if !reserved.value { return true; }
    var answer := record.SendProbe(p);
    ok := record.Complete(IdentityOf(p));
  }

  /** The first `i` probes have a sample, and only probes without one were sent. */
  ghost predicate Progress(
    before: seq<Identity>, sent: seq<Identity>, known: set<Identity>, keys: set<Identity>, plan: seq<Probe>, i: nat)
  {
    && i <= |plan|
    && SentOnce(before, sent, known, plan[..i])
    && known <= keys <= known + IdentitySet(plan[..i])
    && IdentitySet(plan[..i]) <= keys
  }

  lemma ProgressStep(
    before: seq<Identity>, sent: seq<Identity>, sent': seq<Identity>, known: set<Identity>,
    keys: set<Identity>, keys': set<Identity>, plan: seq<Probe>, i: nat)
    requires i < |plan| && DistinctProbes(plan) && Progress(before, sent, known, keys, plan, i)
    requires sent' == sent || (sent' == sent + [IdentityOf(plan[i])] && IdentityOf(plan[i]) !in known)
    requires keys <= keys' <= keys + {IdentityOf(plan[i])}
    ensures SentOnce(before, sent', known, plan) && known <= keys' <= known + IdentitySet(plan)
    ensures IdentityOf(plan[i]) in keys' ==> Progress(before, sent', known, keys', plan, i + 1)
  {
    IdentitySnoc(plan, i);
    PlanGrows(plan, i + 1);
    if sent' == sent {
      SentStill(before, sent, known, plan, i);
    } else {
      SentOneMore(before, sent, known, plan, i);
    }
    SentAll(before, sent', known, plan, i + 1);
  }

  /** The planned samples that are not known, in order. */
  function Missing(plan: seq<Probe>, known: set<Identity>): seq<Identity> {
    if plan == [] then []
    else Missing(plan[..|plan| - 1], known) + if IdentityOf(plan[|plan| - 1]) in known then [] else [IdentityOf(plan[|plan| - 1])]
  }

  /** Every missing sample of the plan is there with its variant and a known outcome; what was there is as it was. */
  ghost predicate Filled(before: map<Identity, Sample>, after: map<Identity, Sample>, plan: seq<Probe>) {
    && after.Keys == before.Keys + IdentitySet(plan)
    && (forall k <- before :: after[k] == before[k])
    && forall i :: 0 <= i < |plan| && IdentityOf(plan[i]) !in before ==> after[IdentityOf(plan[i])] == Sample(plan[i].variant, true)
  }

  /** Where no reply is lost: the first `i` samples are filled in, and the missing ones among them were sent. */
  ghost predicate Steady(
    was: map<Identity, Sample>, samples: map<Identity, Sample>, before: seq<Identity>, sent: seq<Identity>, plan: seq<Probe>, i: nat)
  {
    i <= |plan| && Filled(was, samples, plan[..i]) && sent == before + Missing(plan[..i], was.Keys)
  }

  lemma FilledStep(was: map<Identity, Sample>, samples: map<Identity, Sample>, plan: seq<Probe>, i: nat)
    requires i < |plan| && DistinctProbes(plan) && Filled(was, samples, plan[..i])
    ensures IdentityOf(plan[i]) in was ==> Filled(was, samples, plan[..i + 1])
    ensures IdentityOf(plan[i]) !in was ==>
              && IdentityOf(plan[i]) !in samples
              && Filled(was, samples[IdentityOf(plan[i]) := Sample(plan[i].variant, true)], plan[..i + 1])
  {
    IdentitySnoc(plan, i);
    forall k | 0 <= k < i ensures IdentityOf(plan[k]) in IdentitySet(plan[..i]) { assert plan[..i][k] == plan[k]; }
  }

  lemma SteadyStep(
    was: map<Identity, Sample>, samples: map<Identity, Sample>, before: seq<Identity>, sent: seq<Identity>, plan: seq<Probe>, i: nat)
    requires i < |plan| && DistinctProbes(plan) && Steady(was, samples, before, sent, plan, i)
    ensures IdentityOf(plan[i]) in was ==> Steady(was, samples, before, sent, plan, i + 1)
    ensures var id := IdentityOf(plan[i]);
            id !in was ==>
              id !in samples && Steady(was, samples[id := Sample(plan[i].variant, true)], before, sent + [id], plan, i + 1)
  {
    FilledStep(was, samples, plan, i);
    assert plan[..i + 1][..i] == plan[..i];
  }

  /** Goes through the plan; stops at the first sample whose fate is unknown. */
  method ProbeAll(record: RunRecord, plan: seq<Probe>) returns (ok: bool)
    requires DistinctProbes(plan)
    modifies record`samples, record`sent
    ensures SentOnce(old(record.sent), record.sent, old(record.samples).Keys, plan)
    ensures old(record.samples).Keys <= record.samples.Keys <= old(record.samples).Keys + IdentitySet(plan)
    ensures ok ==> IdentitySet(plan) <= record.samples.Keys
    ensures record.reliable ==>
              && ok && Filled(old(record.samples), record.samples, plan)
              && record.sent == old(record.sent) + Missing(plan, old(record.samples).Keys)
  {
    var known := record.samples.Keys;
    ghost var before, was := record.sent, record.samples;
    var i := 0;
    while i < |plan|
      invariant Progress(before, record.sent, known, record.samples.Keys, plan, i)
      invariant record.reliable ==> Steady(was, record.samples, before, record.sent, plan, i)
    {
      if record.reliable { SteadyStep(was, record.samples, before, record.sent, plan, i); }
      ghost var sent, keys := record.sent, record.samples.Keys;
      var done := true;
      if IdentityOf(plan[i]) !in known { done := ExecuteProbe(record, plan[i]); }
      ProgressStep(before, sent, record.sent, known, keys, record.samples.Keys, plan, i);
      if !done { return false; }
      i := i + 1;
    }
    assert plan[..i] == plan;
    ok := true;
  }

  /**
   Executes a run from whatever samples earlier executions left. Probes are sent only for
   samples that did not exist, at most once each, whether or not the execution gets through;
   it succeeds only when the samples are exactly the plan and every outcome is known.
   */
  method Execute(record: RunRecord, plan: seq<Probe>) returns (ok: bool)
    requires DistinctProbes(plan) && |plan| == record.planned
    modifies record
    ensures SentOnce(old(record.sent), record.sent, old(record.samples).Keys, plan)
    ensures old(record.samples).Keys <= record.samples.Keys <= old(record.samples).Keys + IdentitySet(plan)
    ensures ok && old(record.samples).Keys <= IdentitySet(plan) ==> record.samples.Keys == IdentitySet(plan)
    ensures ok ==> record.status.Succeeded? && forall k <- record.samples :: record.samples[k].done
    ensures !Unfinished(old(record.status)) && !old(record.status).Succeeded? ==> !ok
    ensures record.reliable && old(record.samples).Keys <= IdentitySet(plan) ==>
              && (ok <==> old(record.status).Running? && forall k <- old(record.samples) :: old(record.samples)[k].done)
              && Filled(old(record.samples), record.samples, plan)
              && record.sent == old(record.sent) + Missing(plan, old(record.samples).Keys)
  {
    ok := ProbeAll(record, plan);
    if !ok {
      record.Fail(Uncertain);
      return;
    }
    ghost var samples := record.samples;
    ok := Conclude(record);
    assert record.samples == samples;
    if record.reliable && old(record.samples).Keys <= IdentitySet(plan) {
      IdentitiesCounted(plan);
      FilledDone(old(record.samples), samples, plan);
    }
  }

  lemma {:induction false} IdentitiesCounted(plan: seq<Probe>)
    requires DistinctProbes(plan)
    ensures |IdentitySet(plan)| == |plan|
  {
    if plan != [] {
      var n := |plan| - 1;
      IdentitiesCounted(plan[..n]);
      IdentitySnoc(plan, n);
      assert plan[..n + 1] == plan;
    }
  }

  /** What is filled in has a known outcome, so the rest decides. */
  lemma FilledDone(before: map<Identity, Sample>, after: map<Identity, Sample>, plan: seq<Probe>)
    requires Filled(before, after, plan) && before.Keys <= IdentitySet(plan)
    ensures after.Keys == IdentitySet(plan) && |after| == |IdentitySet(plan)|
    ensures (forall k <- after :: after[k].done) <==> forall k <- before :: before[k].done
  {
    assert |after| == |after.Keys|;
    if forall k <- before :: before[k].done {
      forall k | k in after ensures after[k].done {
        if k !in before { var i :| 0 <= i < |plan| && IdentityOf(plan[i]) == k; }
      }
    }
    if forall k <- after :: after[k].done {
      forall k | k in before ensures before[k].done { assert after[k] == before[k]; }
    }
  }

  lemma PlanGrows(plan: seq<Probe>, n: nat)
    requires n <= |plan|
    ensures IdentitySet(plan[..n]) <= IdentitySet(plan)
  {
  }

  /** Counts the samples, looks for unknown outcomes, and ends the run. */
  method Conclude(record: RunRecord) returns (ok: bool)
    modifies record`status
    ensures ok <==> (
              && |record.samples| == record.planned && (forall k <- record.samples :: record.samples[k].done)
              && old(record.status).Running?)
    ensures ok ==> record.status.Succeeded?
    ensures !ok ==>
              record.status ==
              if !Unfinished(old(record.status)) then old(record.status)
              else if |record.samples| != record.planned then Uncertain
              else if exists k <- record.samples :: !record.samples[k].done then Failed
              else old(record.status)
  {
    if |record.samples| != record.planned {
      record.Fail(Uncertain);
      return false;
    }
    if exists k <- record.samples :: !record.samples[k].done {
      record.Fail(Failed);
      return false;
    }
    if !record.status.Running? { return false; }
    record.Fail(Succeeded);
    ok := true;
  }
}
