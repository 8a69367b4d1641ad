/** Evaluation runs, their samples and budgets. */
module EvaluationProtocol {
  // Driven by any number of workers that may retry, overlap, fail and crash.
  import opened Wrappers
  import opened Sequences
  import opened EvaluationPlan

  const DAILY_LIMIT := 200

  datatype Bucket = Bucket(supplier: nat, model: string, day: int)

  datatype Status = Pending | Running | Uncertain | Succeeded | Failed

  datatype Run = Run(bucket: Bucket, purpose: Purpose, seed: nat, planned: nat, status: Status)

  datatype Id = Id(run: nat, key: string, index: nat)

  /** A reserved sample; `done` once its outcome is known. */
  datatype Sample = Sample(variant: nat, done: bool)

  /** A worker on a run: it knows which samples existed, and which planned probe comes next. */
  datatype Worker =
    | Idle
    | Loaded(run: nat)
    | Executing(run: nat, known: set<Id>, next: nat)
    | Reserved(run: nat, known: set<Id>, next: nat)
    | Answered(run: nat, known: set<Id>, next: nat)
    | Checked(run: nat)

  /** `sent` lists every probe that left for the supplier. */
  datatype State = State(
    runs: seq<Run>, budgets: map<Bucket, nat>, samples: map<Id, Sample>, sent: seq<Id>, workers: seq<Worker>)

  type Plans = (Purpose, nat) -> seq<Probe>

  datatype Step =
    | Create(bucket: Bucket, purpose: Purpose, seed: nat)
    | Load(w: nat, run: nat)
    | List(w: nat)
    | Reserve(w: nat)
    | Send(w: nat)
    | Record(w: nat)
    | Check(w: nat)
    | Finish(w: nat)
    | Fail(w: nat)
    | Crash(w: nat)
    | Defer(run: nat)

  ghost predicate GoodPlans(plans: Plans) {
    forall p, s :: |plans(p, s)| == PlannedSamples(p) && DistinctProbes(plans(p, s))
  }

  function Budget(s: State, b: Bucket): nat { if b in s.budgets then s.budgets[b] else 0 }

  function PlanOfRun(plans: Plans, r: Run): seq<Probe> { plans(r.purpose, r.seed) }

  function NextId(plans: Plans, s: State, w: Worker): Id
    requires (w.Executing? || w.Reserved? || w.Answered?) && w.run < |s.runs|
    requires w.next < |PlanOfRun(plans, s.runs[w.run])|
  {
    var p := PlanOfRun(plans, s.runs[w.run])[w.next];
    Id(w.run, p.key, p.index)
  }

  function SamplesOf(s: State, run: nat): set<Id> { set id | id in s.samples && id.run == run }

  predicate AllDone(s: State, run: nat) { forall id <- s.samples :: id.run == run ==> s.samples[id].done }

  /** The worker is at a planned probe of an existing run. */
  predicate AtProbe(plans: Plans, s: State, w: Worker) {
    (w.Executing? || w.Reserved? || w.Answered?) && w.run < |s.runs| && w.next < |PlanOfRun(plans, s.runs[w.run])|
  }

  predicate Unfinished(status: Status) { status.Pending? || status.Running? || status.Uncertain? }

  predicate Enabled(plans: Plans, s: State, step: Step) {
    match step
    case Create(b, p, seed) => PlannedSamples(p) <= DAILY_LIMIT && Budget(s, b) + PlannedSamples(p) <= DAILY_LIMIT
    case Load(w, run) => w < |s.workers| && s.workers[w].Idle? && run < |s.runs| && Unfinished(s.runs[run].status)
    case List(w) => w < |s.workers| && s.workers[w].Loaded?
    case Reserve(w) => w < |s.workers| && s.workers[w].Executing? && AtProbe(plans, s, s.workers[w])
    case Send(w) => w < |s.workers| && s.workers[w].Reserved? && AtProbe(plans, s, s.workers[w])
    case Record(w) => w < |s.workers| && s.workers[w].Answered? && AtProbe(plans, s, s.workers[w])
    case Check(w) =>
      && w < |s.workers| && s.workers[w].Executing? && s.workers[w].run < |s.runs|
      && s.workers[w].next == |PlanOfRun(plans, s.runs[s.workers[w].run])|
    case Finish(w) => w < |s.workers| && s.workers[w].Checked? && s.workers[w].run < |s.runs|
    case Fail(w) => w < |s.workers| && !s.workers[w].Idle? && s.workers[w].run < |s.runs|
    case Crash(w) => w < |s.workers|
    case Defer(run) => run < |s.runs|
  }

  /** Runs that ended stay as they are. */
  function WithStatus(runs: seq<Run>, run: nat, status: Status): seq<Run>
    requires run < |runs|
  {
    if Unfinished(runs[run].status) then runs[run := runs[run].(status := status)] else runs
  }

  function With(s: State, w: nat, worker: Worker): State
    requires w < |s.workers|
  {
    s.(workers := s.workers[w := worker])
  }

  function After(plans: Plans, s: State, step: Step): State
    requires Enabled(plans, s, step)
  {
    match step
    case Create(b, p, seed) =>
      s.(runs := s.runs + [Run(b, p, seed, PlannedSamples(p), Pending)],
         budgets := s.budgets[b := Budget(s, b) + PlannedSamples(p)])
    case Load(w, run) => With(s.(runs := WithStatus(s.runs, run, Running)), w, Loaded(run))
    case List(w) => With(s, w, Executing(s.workers[w].run, SamplesOf(s, s.workers[w].run), 0))
    case Reserve(w) => AfterReserve(plans, s, w)
    case Send(w) =>
      var c := s.workers[w];
      With(s.(sent := s.sent + [NextId(plans, s, c)]), w, Answered(c.run, c.known, c.next))
    case Record(w) => AfterRecord(plans, s, w)
    case Check(w) => AfterCheck(s, w)
    case Finish(w) =>
      var run := s.workers[w].run;
      With(s.(runs := if s.runs[run].status.Running? then WithStatus(s.runs, run, Succeeded) else s.runs), w, Idle)
    case Fail(w) => With(s.(runs := WithStatus(s.runs, s.workers[w].run, Uncertain)), w, Idle)
    case Crash(w) => With(s, w, Idle)
    case Defer(run) => s.(runs := WithStatus(s.runs, run, Uncertain))
  }

  /** A known or already reserved sample is passed over; otherwise this worker owns it. */
  function AfterReserve(plans: Plans, s: State, w: nat): State
    requires w < |s.workers| && s.workers[w].Executing? && AtProbe(plans, s, s.workers[w])
  {
    var c := s.workers[w];
    var id := NextId(plans, s, c);
    if id in c.known || id in s.samples then With(s, w, Executing(c.run, c.known, c.next + 1))
    else
      With(s.(samples := s.samples[id := Sample(PlanOfRun(plans, s.runs[c.run])[c.next].variant, false)]),
           w, Reserved(c.run, c.known, c.next))
  }

  /** The outcome is stored only on an open reservation. */
  function AfterRecord(plans: Plans, s: State, w: nat): State
    requires w < |s.workers| && s.workers[w].Answered? && AtProbe(plans, s, s.workers[w])
  {
    var c := s.workers[w];
    var id := NextId(plans, s, c);
    if id in s.samples && !s.samples[id].done then
      With(s.(samples := s.samples[id := s.samples[id].(done := true)]), w, Executing(c.run, c.known, c.next + 1))
    else With(s.(runs := WithStatus(s.runs, c.run, Uncertain)), w, Idle)
  }

  /** Too few samples leave the run to be retried; an unknown outcome ends it. */
  function AfterCheck(s: State, w: nat): State
    requires w < |s.workers| && s.workers[w].Executing? && s.workers[w].run < |s.runs|
  {
    var run := s.workers[w].run;
    if |SamplesOf(s, run)| != s.runs[run].planned then With(s.(runs := WithStatus(s.runs, run, Uncertain)), w, Idle)
    else if !AllDone(s, run) then With(s.(runs := WithStatus(s.runs, run, Failed)), w, Idle)
    else With(s, w, Checked(run))
  }

  ghost predicate Execution(plans: Plans, states: seq<State>, steps: seq<Step>) {
    && |states| == |steps| + 1
    && states[0] == State([], map[], map[], [], states[0].workers)
    && (forall w <- states[0].workers :: w.Idle?)
    && forall k :: 0 <= k < |steps| ==>
         Enabled(plans, states[k], steps[k]) && states[k + 1] == After(plans, states[k], steps[k])
  }

  // ---------- the planned samples of a run ----------

  function PlannedIds(plan: seq<Probe>, run: nat): set<Id> { set i | 0 <= i < |plan| :: Id(run, plan[i].key, plan[i].index) }

  lemma {:induction false} PlannedIdsSize(plan: seq<Probe>, run: nat)
    requires DistinctProbes(plan)
    ensures |PlannedIds(plan, run)| == |plan|
  {
    if plan == [] {
      assert PlannedIds(plan, run) == {};
    } else {
      var n := |plan| - 1;
      var before, last := PlannedIds(plan[..n], run), Id(run, plan[n].key, plan[n].index);
      PlannedIdsSize(plan[..n], run);
      assert PlannedIds(plan, run) == before + {last};
      assert last !in before;
    }
  }

  lemma SubsetOfSize<T>(a: set<T>, b: set<T>)
    requires a <= b && |a| == |b|
    ensures a == b
  {
    assert |b - a| == |b| - |a|;
    assert b - a == {};
  }

  // ---------- invariants ----------

  /** Every sample belongs to the plan of its run. */
  ghost predicate SamplesPlanned(plans: Plans, s: State) {
    forall id <- s.samples :: id.run < |s.runs| && InPlan(PlanOfRun(plans, s.runs[id.run]), id, s.samples[id].variant)
  }

  predicate InPlan(plan: seq<Probe>, id: Id, variant: nat) {
    exists i :: 0 <= i < |plan| && plan[i].key == id.key && plan[i].index == id.index && plan[i].variant == variant
  }

  /** The reservation a worker owns. */
  function Owned(plans: Plans, s: State, w: nat): Option<Id>
    requires w < |s.workers|
  {
    var c := s.workers[w];
    if c.Reserved? && AtProbe(plans, s, c) then Some(NextId(plans, s, c)) else None
  }

  /** What a worker owns is an open sample nobody sent, and nobody else owns it. */
  ghost predicate Exclusive(plans: Plans, s: State) {
    && (forall w: nat :: w < |s.workers| && Owned(plans, s, w).Some? ==> Unsent(s, Owned(plans, s, w).value))
    && forall v: nat, w: nat :: v < w < |s.workers| && Owned(plans, s, v).Some? ==> Owned(plans, s, v) != Owned(plans, s, w)
  }

  predicate Unsent(s: State, id: Id) { id in s.samples && !s.samples[id].done && id !in s.sent }

  ghost predicate OnceOnly(s: State) { NoDup(s.sent) && forall id <- s.sent :: id in s.samples }

  /** The samples of the run are its whole plan, each with a known outcome. */
  ghost predicate Complete(plans: Plans, s: State, run: nat)
    requires run < |s.runs|
  {
    SamplesOf(s, run) == PlannedIds(PlanOfRun(plans, s.runs[run]), run) && AllDone(s, run)
  }

  ghost predicate Finished(plans: Plans, s: State) {
    && (forall r: nat :: r < |s.runs| && s.runs[r].status.Succeeded? ==> Complete(plans, s, r))
    && forall w: nat :: w < |s.workers| && s.workers[w].Checked? ==>
         s.workers[w].run < |s.runs| && Complete(plans, s, s.workers[w].run)
  }

  function ReservedBy(runs: seq<Run>, b: Bucket): nat {
    if runs == [] then 0
    else ReservedBy(runs[..|runs| - 1], b) + if runs[|runs| - 1].bucket == b then runs[|runs| - 1].planned else 0
  }

  ghost predicate Budgeted(s: State) {
    && (forall b :: Budget(s, b) == ReservedBy(s.runs, b) && Budget(s, b) <= DAILY_LIMIT)
    && forall r :: 0 <= r < |s.runs| ==> s.runs[r].planned == PlannedSamples(s.runs[r].purpose)
  }

  ghost predicate WorkersSound(s: State) {
    forall w: nat :: w < |s.workers| && !s.workers[w].Idle? ==> s.workers[w].run < |s.runs|
  }

  ghost predicate Inv(plans: Plans, s: State) {
    && SamplesPlanned(plans, s) && Exclusive(plans, s) && OnceOnly(s) && Finished(plans, s)
    && Budgeted(s) && WorkersSound(s)
  }

  /** The fixed part of every run stays; runs are only added. */
  ghost predicate SameRuns(a: seq<Run>, b: seq<Run>) {
    |a| <= |b| && forall r :: 0 <= r < |a| ==>
      b[r].bucket == a[r].bucket && b[r].purpose == a[r].purpose && b[r].seed == a[r].seed && b[r].planned == a[r].planned
  }

  /** Samples are only added, and only become done. */
  ghost predicate SamplesGrow(a: map<Id, Sample>, b: map<Id, Sample>) {
    forall id <- a :: id in b && b[id].variant == a[id].variant && (a[id].done ==> b[id].done)
  }

  // ---------- what every step keeps ----------

  lemma {:induction false} ReservedSame(a: seq<Run>, b: seq<Run>, bucket: Bucket)
    requires |a| == |b| && SameRuns(a, b)
    ensures ReservedBy(a, bucket) == ReservedBy(b, bucket)
  {
    if a != [] { ReservedSame(a[..|a| - 1], b[..|b| - 1], bucket); }
  }

  lemma BudgetedSame(s: State, t: State)
    requires Budgeted(s) && t.budgets == s.budgets && |s.runs| == |t.runs| && SameRuns(s.runs, t.runs)
    ensures Budgeted(t)
  {
    forall b ensures Budget(t, b) == ReservedBy(t.runs, b) && Budget(t, b) <= DAILY_LIMIT {
      ReservedSame(s.runs, t.runs, b);
      assert Budget(t, b) == Budget(s, b);
    }
  }

  /** Only one worker moved, to a state without a reservation; statuses may have changed. */
  ghost predicate Quiet(s: State, t: State, w: nat) {
    && t.samples == s.samples && t.sent == s.sent && t.budgets == s.budgets
    && |t.runs| == |s.runs| && SameRuns(s.runs, t.runs)
    && OthersSame(s, t, w) && (w < |t.workers| ==> !t.workers[w].Reserved?)
  }

  ghost predicate OthersSame(s: State, t: State, w: nat) {
    |t.workers| == |s.workers| && forall v: nat :: v < |s.workers| && v != w ==> t.workers[v] == s.workers[v]
  }

  lemma OwnedSame(plans: Plans, s: State, t: State, v: nat)
    requires v < |s.workers| == |t.workers| && t.workers[v] == s.workers[v] && SameRuns(s.runs, t.runs)
    requires WorkersSound(s)
    ensures Owned(plans, t, v) == Owned(plans, s, v)
  {
  }

  lemma QuietKeeps(plans: Plans, s: State, t: State, w: nat)
    requires Inv(plans, s) && Quiet(s, t, w)
    ensures SamplesPlanned(plans, t) && Exclusive(plans, t) && OnceOnly(t) && Budgeted(t)
  {
    forall v: nat | v < |t.workers| ensures Owned(plans, t, v) == if v == w then None else Owned(plans, s, v) {
      if v != w { OwnedSame(plans, s, t, v); }
    }
    BudgetedSame(s, t);
  }

  /** A finished run stays complete: samples are never removed and never reopened. */
  lemma CompleteStays(plans: Plans, s: State, t: State, run: nat)
    requires run < |s.runs| && Complete(plans, s, run) && SamplesPlanned(plans, t)
    requires SamplesGrow(s.samples, t.samples) && SameRuns(s.runs, t.runs)
    ensures run < |t.runs| && Complete(plans, t, run)
  {
    var plan := PlanOfRun(plans, t.runs[run]);
    assert plan == PlanOfRun(plans, s.runs[run]);
    forall id | id in SamplesOf(t, run) ensures id in PlannedIds(plan, run) && t.samples[id].done {
      assert InPlan(plan, id, t.samples[id].variant);
      var i :| 0 <= i < |plan| && plan[i].key == id.key && plan[i].index == id.index;
      assert Id(run, plan[i].key, plan[i].index) == id;
      assert id in SamplesOf(s, run);
    }
    forall id | id in PlannedIds(plan, run) ensures id in SamplesOf(t, run) { assert id in SamplesOf(s, run); }
  }

  /** New successes and new checks are complete; old ones stay. */
  lemma FinishedKeeps(plans: Plans, s: State, t: State, w: nat)
    requires Inv(plans, s) && SamplesPlanned(plans, t) && SamplesGrow(s.samples, t.samples) && SameRuns(s.runs, t.runs)
    requires OthersSame(s, t, w)
    requires w < |t.workers| && t.workers[w].Checked? ==> t.workers[w].run < |t.runs| && Complete(plans, t, t.workers[w].run)
    requires forall r: nat :: r < |t.runs| && t.runs[r].status.Succeeded? ==>
               (r < |s.runs| && s.runs[r].status.Succeeded?) || Complete(plans, t, r)
    ensures Finished(plans, t)
  {
    forall r: nat | r < |t.runs| && t.runs[r].status.Succeeded? ensures Complete(plans, t, r) {
      if r < |s.runs| && s.runs[r].status.Succeeded? { CompleteStays(plans, s, t, r); }
    }
    forall v: nat | v < |t.workers| && t.workers[v].Checked?
      ensures t.workers[v].run < |t.runs| && Complete(plans, t, t.workers[v].run)
    {
      if v != w { CompleteStays(plans, s, t, s.workers[v].run); }
    }
  }

  lemma QuietStep(plans: Plans, s: State, t: State, w: nat)
    requires Inv(plans, s) && Quiet(s, t, w) && WorkersSound(t)
    requires w < |t.workers| && t.workers[w].Checked? ==> t.workers[w].run < |t.runs| && Complete(plans, t, t.workers[w].run)
    requires forall r: nat :: r < |t.runs| && t.runs[r].status.Succeeded? ==>
               (r < |s.runs| && s.runs[r].status.Succeeded?) || Complete(plans, t, r)
    ensures Inv(plans, t)
  {
    QuietKeeps(plans, s, t, w);
    FinishedKeeps(plans, s, t, w);
  }

  lemma CreateStep(plans: Plans, s: State, step: Step)
    requires Inv(plans, s) && Enabled(plans, s, step) && step.Create?
    ensures Inv(plans, After(plans, s, step))
  {
    var t := After(plans, s, step);
    assert SameRuns(s.runs, t.runs);
    forall v: nat | v < |t.workers| ensures Owned(plans, t, v) == Owned(plans, s, v) { OwnedSame(plans, s, t, v); }
    FinishedKeeps(plans, s, t, |s.workers|);
    assert t.runs[..|t.runs| - 1] == s.runs;
    forall b ensures Budget(t, b) == ReservedBy(t.runs, b) && Budget(t, b) <= DAILY_LIMIT {
      assert Budget(s, b) == ReservedBy(s.runs, b) && Budget(s, b) <= DAILY_LIMIT;
    }
  }

  /** The worker takes a sample nobody has. */
  ghost predicate Taken(plans: Plans, s: State, t: State, w: nat, id: Id)
    requires w < |s.workers| && AtProbe(plans, s, s.workers[w])
  {
    var c := s.workers[w];
    && c.Executing? && id == NextId(plans, s, c) && id !in s.samples
    && t == With(s.(samples := s.samples[id := Sample(PlanOfRun(plans, s.runs[c.run])[c.next].variant, false)]),
                 w, Reserved(c.run, c.known, c.next))
  }

  lemma TakenExclusive(plans: Plans, s: State, t: State, w: nat, id: Id)
    requires w < |s.workers| && AtProbe(plans, s, s.workers[w]) && Inv(plans, s) && Taken(plans, s, t, w, id)
    ensures Exclusive(plans, t) && OnceOnly(t)
  {
    forall v: nat | v < |t.workers| ensures Owned(plans, t, v) == if v == w then Some(id) else Owned(plans, s, v) {
      if v != w { OwnedSame(plans, s, t, v); }
    }
    forall v: nat | v < |t.workers| && Owned(plans, t, v).Some? ensures Unsent(t, Owned(plans, t, v).value) {
      if v != w { assert Unsent(s, Owned(plans, s, v).value); }
    }
  }

  lemma TakenPlanned(plans: Plans, s: State, t: State, w: nat, id: Id)
    requires w < |s.workers| && AtProbe(plans, s, s.workers[w]) && SamplesPlanned(plans, s) && Taken(plans, s, t, w, id)
    ensures SamplesPlanned(plans, t) && SamplesGrow(s.samples, t.samples)
  {
    var c := s.workers[w];
    var plan := PlanOfRun(plans, s.runs[c.run]);
    assert InPlan(plan, id, plan[c.next].variant);
  }

  lemma ReserveStep(plans: Plans, s: State, w: nat)
    requires Inv(plans, s) && Enabled(plans, s, Reserve(w))
    ensures Inv(plans, AfterReserve(plans, s, w))
  {
    var id := NextId(plans, s, s.workers[w]);
    var t := AfterReserve(plans, s, w);
    if id in s.workers[w].known || id in s.samples {
      QuietStep(plans, s, t, w);
    } else {
      TakenExclusive(plans, s, t, w, id);
      TakenPlanned(plans, s, t, w, id);
      BudgetedSame(s, t);
      FinishedKeeps(plans, s, t, w);
    }
  }

  lemma SendStep(plans: Plans, s: State, w: nat)
    requires Inv(plans, s) && Enabled(plans, s, Send(w))
    ensures Inv(plans, After(plans, s, Send(w)))
    ensures NextId(plans, s, s.workers[w]) !in s.sent
  {
    var t := After(plans, s, Send(w));
    var id := NextId(plans, s, s.workers[w]);
    assert Owned(plans, s, w) == Some(id);
    assert Unsent(s, id);
    forall v: nat | v < |t.workers| ensures Owned(plans, t, v) == if v == w then None else Owned(plans, s, v) {
      if v != w { OwnedSame(plans, s, t, v); }
    }
    forall v: nat | v < |t.workers| && Owned(plans, t, v).Some? ensures Unsent(t, Owned(plans, t, v).value) {
      assert Owned(plans, s, v) != Some(id);
    }
    BudgetedSame(s, t);
    FinishedKeeps(plans, s, t, w);
  }

  lemma RecordedExclusive(plans: Plans, s: State, t: State, w: nat, id: Id)
    requires w < |s.workers| && Inv(plans, s) && s.workers[w].Answered? && id in s.samples && id in s.sent
    requires t == With(s.(samples := s.samples[id := s.samples[id].(done := true)]), w,
                       Executing(s.workers[w].run, s.workers[w].known, s.workers[w].next + 1))
    ensures Exclusive(plans, t) && OnceOnly(t) && SamplesPlanned(plans, t) && SamplesGrow(s.samples, t.samples)
  {
    forall v: nat | v < |t.workers| ensures Owned(plans, t, v) == if v == w then None else Owned(plans, s, v) {
      if v != w { OwnedSame(plans, s, t, v); }
    }
    forall v: nat | v < |t.workers| && Owned(plans, t, v).Some? ensures Unsent(t, Owned(plans, t, v).value) {
      assert Unsent(s, Owned(plans, s, v).value);
    }
  }

  lemma RecordStep(plans: Plans, s: State, w: nat)
    requires Inv(plans, s) && AnsweredSent(plans, s) && Enabled(plans, s, Record(w))
    ensures Inv(plans, AfterRecord(plans, s, w))
  {
    var id := NextId(plans, s, s.workers[w]);
    var t := AfterRecord(plans, s, w);
    if id in s.samples && !s.samples[id].done {
      RecordedExclusive(plans, s, t, w, id);
      BudgetedSame(s, t);
      FinishedKeeps(plans, s, t, w);
    } else {
      QuietStep(plans, s, t, w);
    }
  }

  /** A worker with an answer has sent its probe. */
  ghost predicate AnsweredSent(plans: Plans, s: State) {
    forall w: nat :: w < |s.workers| && s.workers[w].Answered? && AtProbe(plans, s, s.workers[w]) ==>
      NextId(plans, s, s.workers[w]) in s.sent
  }

  lemma CheckedComplete(plans: Plans, s: State, run: nat)
    requires GoodPlans(plans) && Inv(plans, s) && run < |s.runs|
    requires |SamplesOf(s, run)| == s.runs[run].planned && AllDone(s, run)
    ensures Complete(plans, s, run)
  {
    var plan := PlanOfRun(plans, s.runs[run]);
    assert |plans(s.runs[run].purpose, s.runs[run].seed)| == PlannedSamples(s.runs[run].purpose);
    PlannedIdsSize(plan, run);
    forall id | id in SamplesOf(s, run) ensures id in PlannedIds(plan, run) {
      assert InPlan(plan, id, s.samples[id].variant);
      var i :| 0 <= i < |plan| && plan[i].key == id.key && plan[i].index == id.index;
      assert Id(run, plan[i].key, plan[i].index) == id;
    }
    SubsetOfSize(SamplesOf(s, run), PlannedIds(plan, run));
  }

  lemma CheckStep(plans: Plans, s: State, w: nat)
    requires GoodPlans(plans) && Inv(plans, s) && Enabled(plans, s, Check(w))
    ensures Inv(plans, AfterCheck(s, w))
  {
    var run := s.workers[w].run;
    var t := AfterCheck(s, w);
    if |SamplesOf(s, run)| == s.runs[run].planned && AllDone(s, run) {
      CheckedComplete(plans, s, run);
      assert SamplesOf(t, run) == SamplesOf(s, run);
      assert Complete(plans, t, run);
    }
    QuietStep(plans, s, t, w);
  }

  lemma FinishStep(plans: Plans, s: State, w: nat)
    requires Inv(plans, s) && Enabled(plans, s, Finish(w))
    ensures Inv(plans, After(plans, s, Finish(w)))
  {
    var run := s.workers[w].run;
    var t := After(plans, s, Finish(w));
    assert SamplesOf(t, run) == SamplesOf(s, run);
    assert Complete(plans, t, run);
    QuietStep(plans, s, t, w);
  }

  lemma StepKeeps(plans: Plans, s: State, step: Step)
    requires GoodPlans(plans) && Inv(plans, s) && AnsweredSent(plans, s) && Enabled(plans, s, step)
    ensures Inv(plans, After(plans, s, step))
  {
    var t := After(plans, s, step);
    match step
    case Create(_, _, _) => CreateStep(plans, s, step);
    case Reserve(w) => ReserveStep(plans, s, w);
    case Send(w) => SendStep(plans, s, w);
    case Record(w) => RecordStep(plans, s, w);
    case Check(w) => CheckStep(plans, s, w);
    case Finish(w) => FinishStep(plans, s, w);
    case Load(w, _) => QuietStep(plans, s, t, w);
    case List(w) => QuietStep(plans, s, t, w);
    case Fail(w) => QuietStep(plans, s, t, w);
    case Crash(w) => QuietStep(plans, s, t, w);
    case Defer(_) => QuietStep(plans, s, t, |s.workers|);
  }

  lemma AnsweredStart(plans: Plans, s: State, step: Step)
    requires WorkersSound(s) && AnsweredSent(plans, s) && Enabled(plans, s, step)
    requires step.Create? || step.Defer? || step.Load? || step.List?
    ensures AnsweredSent(plans, After(plans, s, step))
  {
    AnsweredOthers(plans, s, After(plans, s, step), if step.Load? || step.List? then step.w else |s.workers|);
  }

  lemma AnsweredEnd(plans: Plans, s: State, step: Step)
    requires WorkersSound(s) && AnsweredSent(plans, s) && Enabled(plans, s, step)
    requires step.Finish? || step.Fail? || step.Crash?
    ensures AnsweredSent(plans, After(plans, s, step))
  {
    AnsweredOthers(plans, s, After(plans, s, step), step.w);
  }

  lemma AnsweredProbe(plans: Plans, s: State, step: Step)
    requires WorkersSound(s) && AnsweredSent(plans, s) && Enabled(plans, s, step)
    requires step.Reserve? || step.Send? || step.Record? || step.Check?
    ensures AnsweredSent(plans, After(plans, s, step))
  {
    AnsweredOthers(plans, s, After(plans, s, step), step.w);
  }

  lemma AnsweredKeeps(plans: Plans, s: State, step: Step)
    requires Inv(plans, s) && AnsweredSent(plans, s) && Enabled(plans, s, step)
    ensures AnsweredSent(plans, After(plans, s, step))
  {
    if step.Reserve? || step.Send? || step.Record? || step.Check? {
      AnsweredProbe(plans, s, step);
    } else if step.Finish? || step.Fail? || step.Crash? {
      AnsweredEnd(plans, s, step);
    } else {
      AnsweredStart(plans, s, step);
    }
  }

  /** Only one worker moved, and it has sent its probe if it has an answer. */
  lemma AnsweredOthers(plans: Plans, s: State, t: State, w: nat)
    requires WorkersSound(s) && AnsweredSent(plans, s) && OthersSame(s, t, w) && SameRuns(s.runs, t.runs)
    requires forall id <- s.sent :: id in t.sent
    requires w < |t.workers| && t.workers[w].Answered? && AtProbe(plans, t, t.workers[w]) ==> NextId(plans, t, t.workers[w]) in t.sent
    ensures AnsweredSent(plans, t)
  {
    forall v: nat | v < |t.workers| && t.workers[v].Answered? && AtProbe(plans, t, t.workers[v])
      ensures NextId(plans, t, t.workers[v]) in t.sent
    {
      if v != w { assert NextId(plans, t, t.workers[v]) == NextId(plans, s, s.workers[v]); }
    }
  }

  lemma {:induction false} Reachable(plans: Plans, states: seq<State>, steps: seq<Step>, k: nat)
    requires GoodPlans(plans) && Execution(plans, states, steps) && k < |states|
    ensures Inv(plans, states[k]) && AnsweredSent(plans, states[k])
  {
    if k == 0 {
      forall w: nat | w < |states[0].workers| ensures states[0].workers[w].Idle? {
        assert states[0].workers[w] in states[0].workers;
      }
    } else {
      Reachable(plans, states, steps, k - 1);
      StepKeeps(plans, states[k - 1], steps[k - 1]);
      AnsweredKeeps(plans, states[k - 1], steps[k - 1]);
    }
  }

  // ---------- the main results ----------

  /** Whatever retries, overlaps and crashes happen, no probe is sent twice. */
  lemma ProbedAtMostOnce(plans: Plans, states: seq<State>, steps: seq<Step>, k: nat)
    requires GoodPlans(plans) && Execution(plans, states, steps) && k < |states|
    ensures NoDup(states[k].sent)
  {
    Reachable(plans, states, steps, k);
  }

  /** A run that succeeded has exactly the samples its seed determines, all with a known outcome. */
  lemma SucceededIsComplete(plans: Plans, states: seq<State>, steps: seq<Step>, k: nat, run: nat)
    requires GoodPlans(plans) && Execution(plans, states, steps) && k < |states|
    requires run < |states[k].runs| && states[k].runs[run].status.Succeeded?
    ensures var s := states[k];
            && SamplesOf(s, run) == PlannedIds(PlanOfRun(plans, s.runs[run]), run)
            && |SamplesOf(s, run)| == s.runs[run].planned
            && forall id <- SamplesOf(s, run) :: s.samples[id].done && InPlan(PlanOfRun(plans, s.runs[run]), id, s.samples[id].variant)
  {
    Reachable(plans, states, steps, k);
    var r := states[k].runs[run];
    assert |plans(r.purpose, r.seed)| == PlannedSamples(r.purpose);
    PlannedIdsSize(PlanOfRun(plans, r), run);
  }

  /** Everything runs of one bucket may ever probe. */
  function BucketIds(plans: Plans, runs: seq<Run>, b: Bucket): set<Id> {
    if runs == [] then {}
    else
      var n := |runs| - 1;
      BucketIds(plans, runs[..n], b) + if runs[n].bucket == b then PlannedIds(PlanOfRun(plans, runs[n]), n) else {}
  }

  lemma {:induction false} BucketIdsSize(plans: Plans, runs: seq<Run>, b: Bucket)
    requires GoodPlans(plans) && forall r :: 0 <= r < |runs| ==> runs[r].planned == PlannedSamples(runs[r].purpose)
    ensures |BucketIds(plans, runs, b)| <= ReservedBy(runs, b)
  {
    if runs != [] {
      var n := |runs| - 1;
      BucketIdsSize(plans, runs[..n], b);
      assert |plans(runs[n].purpose, runs[n].seed)| == PlannedSamples(runs[n].purpose);
      PlannedIdsSize(PlanOfRun(plans, runs[n]), n);
    }
  }

  lemma {:induction false} BucketIdsMember(plans: Plans, runs: seq<Run>, b: Bucket, id: Id)
    requires id.run < |runs| && runs[id.run].bucket == b && id in PlannedIds(PlanOfRun(plans, runs[id.run]), id.run)
    ensures id in BucketIds(plans, runs, b)
  {
    if id.run < |runs| - 1 { BucketIdsMember(plans, runs[..|runs| - 1], b, id); }
  }

  function SentFor(s: State, b: Bucket): seq<Id> {
    Filter((id: Id) => id.run < |s.runs| && s.runs[id.run].bucket == b, s.sent)
  }

  lemma {:induction false} DistinctSize<T>(s: seq<T>, all: set<T>)
    requires NoDup(s) && forall i :: 0 <= i < |s| ==> s[i] in all
    ensures |s| <= |all|
  {
    if s != [] {
      var n := |s| - 1;
      DistinctSize(s[..n], all - {s[n]});
    }
  }

  /** The runs created on one day for one supplier and model never cause more than 200 probes. */
  lemma DailyBudgetHolds(plans: Plans, states: seq<State>, steps: seq<Step>, k: nat, b: Bucket)
    requires GoodPlans(plans) && Execution(plans, states, steps) && k < |states|
    ensures |SentFor(states[k], b)| <= 200
  {
    Reachable(plans, states, steps, k);
    var s := states[k];
    var p := (id: Id) => id.run < |s.runs| && s.runs[id.run].bucket == b;
    FilterMembers(p, s.sent);
    FilterNoDup(p, s.sent);
    var all := BucketIds(plans, s.runs, b);
    forall i | 0 <= i < |SentFor(s, b)| ensures SentFor(s, b)[i] in all {
      var id := SentFor(s, b)[i];
      assert id in SentFor(s, b);
      PlannedMember(plans, s, id);
      BucketIdsMember(plans, s.runs, b, id);
    }
    DistinctSize(SentFor(s, b), all);
    BucketIdsSize(plans, s.runs, b);
    assert Budget(s, b) == ReservedBy(s.runs, b);
  }

  lemma PlannedMember(plans: Plans, s: State, id: Id)
    requires SamplesPlanned(plans, s) && id in s.samples
    ensures id.run < |s.runs| && id in PlannedIds(PlanOfRun(plans, s.runs[id.run]), id.run)
  {
    var plan := PlanOfRun(plans, s.runs[id.run]);
    assert InPlan(plan, id, s.samples[id].variant);
    var i :| 0 <= i < |plan| && plan[i].key == id.key && plan[i].index == id.index;
    assert Id(id.run, plan[i].key, plan[i].index) == id;
  }

  /** The plans the program makes meet what these results ask of plans. */
  function ProgramPlans(random: Random): Plans { (p: Purpose, s: nat) => PlanOf(p, s, random) }

  lemma ProgramPlansGood(random: Random)
    ensures GoodPlans(ProgramPlans(random))
  {
    forall p, s: nat ensures |ProgramPlans(random)(p, s)| == PlannedSamples(p) && DistinctProbes(ProgramPlans(random)(p, s)) {
      PlanDistinct(p, s, random);
    }
  }

  /** A run that ended never changes again. */
  lemma EndedStays(plans: Plans, s: State, step: Step, run: nat)
    requires Enabled(plans, s, step) && run < |s.runs| && !Unfinished(s.runs[run].status)
    ensures run < |After(plans, s, step).runs| && After(plans, s, step).runs[run] == s.runs[run]
  {
  }

  // ---------- overlapping workers ----------

  /** The probe a worker has reserved and not yet recorded, whether it was sent or not. */
  function Held(plans: Plans, s: State, w: nat): Option<Id>
    requires w < |s.workers|
  {
    var c := s.workers[w];
    if (c.Reserved? || c.Answered?) && AtProbe(plans, s, c) then Some(NextId(plans, s, c)) else None
  }

  predicate Open(s: State, id: Id) { id in s.samples && !s.samples[id].done }

  /** Every held probe is an open sample, and nobody else holds it. */
  ghost predicate Holding(plans: Plans, s: State) {
    && (forall w: nat :: w < |s.workers| && Held(plans, s, w).Some? ==> Open(s, Held(plans, s, w).value))
    && forall v: nat, w: nat :: v < w < |s.workers| && Held(plans, s, v).Some? ==> Held(plans, s, v) != Held(plans, s, w)
  }

  /** Only one worker moved; what the others hold is still open, and is not what it holds. */
  ghost predicate Apart(plans: Plans, s: State, t: State, w: nat) {
    && OthersSame(s, t, w) && SameRuns(s.runs, t.runs)
    && (forall v: nat :: v < |s.workers| && v != w && Held(plans, s, v).Some? ==> Open(t, Held(plans, s, v).value))
    && (w < |t.workers| && Held(plans, t, w).Some? ==>
          && Open(t, Held(plans, t, w).value)
          && forall v: nat :: v < |s.workers| && v != w ==> Held(plans, s, v) != Held(plans, t, w))
  }

  lemma HoldingKept(plans: Plans, s: State, t: State, w: nat)
    requires Holding(plans, s) && WorkersSound(s) && Apart(plans, s, t, w)
    ensures Holding(plans, t)
  {
    forall v: nat | v < |t.workers| && v != w ensures Held(plans, t, v) == Held(plans, s, v) { }
  }

  lemma HeldDiffers(plans: Plans, s: State, v: nat, w: nat)
    requires Holding(plans, s) && v < |s.workers| && w < |s.workers| && v != w && Held(plans, s, w).Some?
    ensures Held(plans, s, v) != Held(plans, s, w)
  {
    if v < w { assert Held(plans, s, v).Some? ==> Held(plans, s, v) != Held(plans, s, w); }
  }

  lemma HoldingQuiet(plans: Plans, s: State, t: State, w: nat)
    requires Holding(plans, s) && WorkersSound(s) && t.samples == s.samples
    requires OthersSame(s, t, w) && SameRuns(s.runs, t.runs) && (w < |t.workers| ==> Held(plans, t, w).None?)
    ensures Holding(plans, t)
  {
    HoldingKept(plans, s, t, w);
  }

  lemma HoldingReserve(plans: Plans, s: State, w: nat)
    requires Holding(plans, s) && WorkersSound(s) && Enabled(plans, s, Reserve(w))
    ensures Holding(plans, AfterReserve(plans, s, w))
  {
    var id := NextId(plans, s, s.workers[w]);
    var t := AfterReserve(plans, s, w);
    if id in s.workers[w].known || id in s.samples {
      HoldingQuiet(plans, s, t, w);
    } else {
      assert Held(plans, t, w) == Some(id);
      HoldingKept(plans, s, t, w);
    }
  }

  lemma HoldingSend(plans: Plans, s: State, w: nat)
    requires Holding(plans, s) && WorkersSound(s) && Enabled(plans, s, Send(w))
    ensures Holding(plans, After(plans, s, Send(w)))
  {
    var t := After(plans, s, Send(w));
    assert Held(plans, t, w) == Held(plans, s, w);
    forall v: nat | v < |s.workers| && v != w ensures Held(plans, s, v) != Held(plans, t, w) { HeldDiffers(plans, s, v, w); }
    HoldingKept(plans, s, t, w);
  }

  lemma HoldingRecord(plans: Plans, s: State, w: nat)
    requires Holding(plans, s) && WorkersSound(s) && Enabled(plans, s, Record(w))
    ensures Holding(plans, AfterRecord(plans, s, w))
  {
    var t := AfterRecord(plans, s, w);
    assert Held(plans, s, w) == Some(NextId(plans, s, s.workers[w]));
    forall v: nat | v < |s.workers| && v != w && Held(plans, s, v).Some? ensures Open(t, Held(plans, s, v).value) {
      HeldDiffers(plans, s, v, w);
    }
    HoldingKept(plans, s, t, w);
  }

  lemma HoldingStart(plans: Plans, s: State, step: Step)
    requires Holding(plans, s) && WorkersSound(s) && Enabled(plans, s, step)
    requires step.Create? || step.Defer? || step.Load? || step.List?
    ensures Holding(plans, After(plans, s, step))
  {
    HoldingQuiet(plans, s, After(plans, s, step), if step.Load? || step.List? then step.w else |s.workers|);
  }

  lemma HoldingEnd(plans: Plans, s: State, step: Step)
    requires Holding(plans, s) && WorkersSound(s) && Enabled(plans, s, step)
    requires step.Finish? || step.Fail? || step.Crash?
    ensures Holding(plans, After(plans, s, step))
  {
    HoldingQuiet(plans, s, After(plans, s, step), step.w);
  }

  lemma HoldingStep(plans: Plans, s: State, step: Step)
    requires Holding(plans, s) && WorkersSound(s) && Enabled(plans, s, step)
    ensures Holding(plans, After(plans, s, step))
  {
    match step
    case Reserve(w) => HoldingReserve(plans, s, w);
    case Send(w) => HoldingSend(plans, s, w);
    case Record(w) => HoldingRecord(plans, s, w);
    case Check(w) => HoldingQuiet(plans, s, AfterCheck(s, w), w);
    case Create(_, _, _) => HoldingStart(plans, s, step);
    case Defer(_) => HoldingStart(plans, s, step);
    case Load(_, _) => HoldingStart(plans, s, step);
    case List(_) => HoldingStart(plans, s, step);
    case Finish(_) => HoldingEnd(plans, s, step);
    case Fail(_) => HoldingEnd(plans, s, step);
    case Crash(_) => HoldingEnd(plans, s, step);
  }

  lemma {:induction false} HoldingReachable(plans: Plans, states: seq<State>, steps: seq<Step>, k: nat)
    requires GoodPlans(plans) && Execution(plans, states, steps) && k < |states|
    ensures Holding(plans, states[k])
  {
    if k == 0 {
      forall w: nat | w < |states[0].workers| ensures states[0].workers[w].Idle? {
        assert states[0].workers[w] in states[0].workers;
      }
    } else {
      HoldingReachable(plans, states, steps, k - 1);
      Reachable(plans, states, steps, k - 1);
      HoldingStep(plans, states[k - 1], steps[k - 1]);
    }
  }

  /** A check ends an unfinished run as failed exactly when the plan is complete and some outcome is unknown. */
  lemma CheckFailsExactly(plans: Plans, s: State, w: nat)
    requires Enabled(plans, s, Check(w)) && Unfinished(s.runs[s.workers[w].run].status)
    ensures var run := s.workers[w].run;
            After(plans, s, Check(w)).runs[run].status == Failed <==>
              |SamplesOf(s, run)| == s.runs[run].planned && exists id :: id in SamplesOf(s, run) && Open(s, id)
  {
    var run := s.workers[w].run;
    if !AllDone(s, run) {
      var id :| id in s.samples && id.run == run && !s.samples[id].done;
      assert id in SamplesOf(s, run) && Open(s, id);
    }
  }

  /**
   Overlapping workers stay safe but not always live: in every execution, a worker that
   finds the plan complete ends the run as failed while another worker still holds one of
   its probes, sent or not, and whatever that worker does then, the run stays failed.
   */
  lemma OverlapEndsRun(plans: Plans, states: seq<State>, steps: seq<Step>, k: nat, v: nat, w: nat)
    requires GoodPlans(plans) && Execution(plans, states, steps) && k < |steps| && steps[k] == Check(w)
    requires v < |states[k].workers| && Held(plans, states[k], v).Some? && states[k].workers[v].run == states[k].workers[w].run
    requires var s := states[k];
             Unfinished(s.runs[s.workers[w].run].status) && |SamplesOf(s, s.workers[w].run)| == s.runs[s.workers[w].run].planned
    ensures var run := states[k].workers[w].run;
            forall n :: k < n < |states| ==> run < |states[n].runs| && states[n].runs[run].status == Failed
  {
    var s, run := states[k], states[k].workers[w].run;
    HoldingReachable(plans, states, steps, k);
    var id := Held(plans, s, v).value;
    assert id in SamplesOf(s, run) && Open(s, id);
    CheckFailsExactly(plans, s, w);
    forall n | k < n < |states| ensures run < |states[n].runs| && states[n].runs[run].status == Failed {
      StaysFailed(plans, states, steps, k + 1, n, run);
    }
  }

  lemma {:induction false} StaysFailed(plans: Plans, states: seq<State>, steps: seq<Step>, j: nat, n: nat, run: nat)
    requires Execution(plans, states, steps) && j <= n < |states|
    requires run < |states[j].runs| && states[j].runs[run].status == Failed
    ensures run < |states[n].runs| && states[n].runs[run].status == Failed
    decreases n
  {
    if j < n {
      StaysFailed(plans, states, steps, j, n - 1, run);
      EndedStays(plans, states[n - 1], steps[n - 1], run);
    }
  }

  lemma Continue(plans: Plans, states: seq<State>, steps: seq<Step>, step: Step) returns (longer: seq<State>)
    requires Execution(plans, states, steps) && Enabled(plans, states[|states| - 1], step)
    ensures Execution(plans, longer, steps + [step]) && longer == states + [After(plans, states[|states| - 1], step)]
  {
    longer := states + [After(plans, states[|states| - 1], step)];
  }

  /** Two workers on a health run, which has one probe. */
  function Pair(b: Bucket, seed: nat, status: Status, samples: map<Id, Sample>, sent: seq<Id>, first: Worker, second: Worker): State {
    State([Run(b, Health, seed, 1, status)], map[b := 1], samples, sent, [first, second])
  }

  /** The first worker reserves the probe and sends it. */
  lemma FirstSends(plans: Plans, b: Bucket, seed: nat, id: Id, sample: Sample)
    requires |plans(Health, seed)| == 1
    requires var p := plans(Health, seed)[0]; id == Id(0, p.key, p.index) && sample == Sample(p.variant, false)
    ensures var loaded := Pair(b, seed, Running, map[], [], Loaded(0), Idle);
            Enabled(plans, loaded, List(0)) &&
            After(plans, loaded, List(0)) == Pair(b, seed, Running, map[], [], Executing(0, {}, 0), Idle)
    ensures var executing := Pair(b, seed, Running, map[], [], Executing(0, {}, 0), Idle);
            Enabled(plans, executing, Reserve(0)) &&
            After(plans, executing, Reserve(0)) == Pair(b, seed, Running, map[id := sample], [], Reserved(0, {}, 0), Idle)
    ensures var reserved := Pair(b, seed, Running, map[id := sample], [], Reserved(0, {}, 0), Idle);
            Enabled(plans, reserved, Send(0)) &&
            After(plans, reserved, Send(0)) == Pair(b, seed, Running, map[id := sample], [id], Answered(0, {}, 0), Idle)
  {
    var loaded := Pair(b, seed, Running, map[], [], Loaded(0), Idle);
    assert SamplesOf(loaded, 0) == {};
    assert [Loaded(0), Idle][0 := Executing(0, {}, 0)] == [Executing(0, {}, 0), Idle];
    assert [Executing(0, {}, 0), Idle][0 := Reserved(0, {}, 0)] == [Reserved(0, {}, 0), Idle];
    assert [Reserved(0, {}, 0), Idle][0 := Answered(0, {}, 0)] == [Answered(0, {}, 0), Idle];
  }

  /** The second worker finds the probe reserved and has nothing to send. */
  lemma SecondPasses(plans: Plans, b: Bucket, seed: nat, id: Id, sample: Sample)
    requires |plans(Health, seed)| == 1
    requires var p := plans(Health, seed)[0]; id == Id(0, p.key, p.index) && sample == Sample(p.variant, false)
    ensures var s := Pair(b, seed, Running, map[id := sample], [id], Answered(0, {}, 0), Idle);
            Enabled(plans, s, Load(1, 0)) &&
            After(plans, s, Load(1, 0)) == Pair(b, seed, Running, map[id := sample], [id], Answered(0, {}, 0), Loaded(0))
    ensures var s := Pair(b, seed, Running, map[id := sample], [id], Answered(0, {}, 0), Loaded(0));
            Enabled(plans, s, List(1)) &&
            After(plans, s, List(1)) == Pair(b, seed, Running, map[id := sample], [id], Answered(0, {}, 0), Executing(0, {id}, 0))
    ensures var s := Pair(b, seed, Running, map[id := sample], [id], Answered(0, {}, 0), Executing(0, {id}, 0));
            Enabled(plans, s, Reserve(1)) &&
            After(plans, s, Reserve(1)) == Pair(b, seed, Running, map[id := sample], [id], Answered(0, {}, 0), Executing(0, {id}, 1))
  {
    var s := Pair(b, seed, Running, map[id := sample], [id], Answered(0, {}, 0), Loaded(0));
    var run := Run(b, Health, seed, 1, Running);
    assert SamplesOf(s, 0) == {id};
    assert [run][0 := run] == [run];
    assert [Answered(0, {}, 0), Idle][1 := Loaded(0)] == [Answered(0, {}, 0), Loaded(0)];
    assert [Answered(0, {}, 0), Loaded(0)][1 := Executing(0, {id}, 0)] == [Answered(0, {}, 0), Executing(0, {id}, 0)];
    assert [Answered(0, {}, 0), Executing(0, {id}, 0)][1 := Executing(0, {id}, 1)] == [Answered(0, {}, 0), Executing(0, {id}, 1)];
  }

  lemma Opening(plans: Plans, b: Bucket, seed: nat) returns (states: seq<State>)
    ensures Execution(plans, states, [Create(b, Health, seed), Load(0, 0)])
    ensures |states| == 3 && states[2] == Pair(b, seed, Running, map[], [], Loaded(0), Idle)
  {
    var start := State([], map[], map[], [], [Idle, Idle]);
    var created := Pair(b, seed, Pending, map[], [], Idle, Idle);
    assert [] + [Run(b, Health, seed, 1, Pending)] == [Run(b, Health, seed, 1, Pending)];
    assert After(plans, start, Create(b, Health, seed)) == created;
    assert [Idle, Idle][0 := Loaded(0)] == [Loaded(0), Idle];
    assert [Run(b, Health, seed, 1, Pending)][0 := Run(b, Health, seed, 1, Running)] == [Run(b, Health, seed, 1, Running)];
    states := [start, created, Pair(b, seed, Running, map[], [], Loaded(0), Idle)];
  }

  ghost predicate Reached(plans: Plans, states: seq<State>, steps: seq<Step>, last: State) {
    Execution(plans, states, steps) && states[|states| - 1] == last
  }

  lemma Sent(plans: Plans, b: Bucket, seed: nat, id: Id, sample: Sample, states: seq<State>, steps: seq<Step>)
    returns (longer: seq<State>)
    requires |plans(Health, seed)| == 1
    requires var p := plans(Health, seed)[0]; id == Id(0, p.key, p.index) && sample == Sample(p.variant, false)
    requires Reached(plans, states, steps, Pair(b, seed, Running, map[], [], Loaded(0), Idle))
    ensures Reached(plans, longer, steps + [List(0)] + [Reserve(0)] + [Send(0)],
                    Pair(b, seed, Running, map[id := sample], [id], Answered(0, {}, 0), Idle))
  {
    FirstSends(plans, b, seed, id, sample);
    longer := Continue(plans, states, steps, List(0));
    longer := Continue(plans, longer, steps + [List(0)], Reserve(0));
    longer := Continue(plans, longer, steps + [List(0)] + [Reserve(0)], Send(0));
  }

  lemma Passed(plans: Plans, b: Bucket, seed: nat, id: Id, sample: Sample, states: seq<State>, steps: seq<Step>)
    returns (longer: seq<State>)
    requires |plans(Health, seed)| == 1
    requires var p := plans(Health, seed)[0]; id == Id(0, p.key, p.index) && sample == Sample(p.variant, false)
    requires Reached(plans, states, steps, Pair(b, seed, Running, map[id := sample], [id], Answered(0, {}, 0), Idle))
    ensures Reached(plans, longer, steps + [Load(1, 0)] + [List(1)] + [Reserve(1)],
                    Pair(b, seed, Running, map[id := sample], [id], Answered(0, {}, 0), Executing(0, {id}, 1)))
  {
    SecondPasses(plans, b, seed, id, sample);
    longer := Continue(plans, states, steps, Load(1, 0));
    longer := Continue(plans, longer, steps + [Load(1, 0)], List(1));
    longer := Continue(plans, longer, steps + [Load(1, 0)] + [List(1)], Reserve(1));
  }

  /** One worker sends the only probe of a run; another finds it reserved. */
  function Overlap(b: Bucket, seed: nat): seq<Step> {
    [Create(b, Health, seed), Load(0, 0)] + [List(0)] + [Reserve(0)] + [Send(0)] + [Load(1, 0)] + [List(1)] + [Reserve(1)]
  }

  /**
   It happens: for all plans there is an execution in which one worker has sent a probe and
   waits for its answer, and the check of another ends the run as failed.
   */
  lemma OverlapReached(plans: Plans, b: Bucket, seed: nat) returns (states: seq<State>)
    requires GoodPlans(plans)
    ensures Execution(plans, states, Overlap(b, seed) + [Check(1)])
    ensures var s := states[|Overlap(b, seed)|];
            s.workers[0].Answered? && Held(plans, s, 0).Some? && s.runs[0].status == Running
    ensures states[|states| - 1].runs[0].status == Failed
  {
    assert |plans(Health, seed)| == 1;
    var p := plans(Health, seed)[0];
    var id, sample := Id(0, p.key, p.index), Sample(p.variant, false);
    var steps := [Create(b, Health, seed), Load(0, 0)];
    states := Opening(plans, b, seed);
    states := Sent(plans, b, seed, id, sample, states, steps);
    states := Passed(plans, b, seed, id, sample, states, steps + [List(0)] + [Reserve(0)] + [Send(0)]);
    var last := Pair(b, seed, Running, map[id := sample], [id], Answered(0, {}, 0), Executing(0, {id}, 1));
    assert SamplesOf(last, 0) == {id} && Open(last, id);
    CheckFailsExactly(plans, last, 1);
    states := Continue(plans, states, Overlap(b, seed), Check(1));
  }
}
