/** Why a worker's plan stays current as it writes. */
module PlanFence {
  // Plans, edits and synchronization workers of one site, serialized by the site lock.

  /** Whoever holds the site's advisory lock: a configuration transaction, or a worker's session. */
  datatype Holder = Free | Editor(e: nat) | Worker(w: nat)

  /** A worker is idle, holds the lock before it reloads, or writes for a plan version. */
  datatype Activity = Idle | Reloading(version: nat) | Writing(version: nat)

  /** `plans` holds the content of every plan; the last one is current and its version is the count. */
  datatype State = State(plans: seq<nat>, holder: Holder, workers: seq<Activity>, writes: seq<nat>) {
    function Current(): nat { |plans| }
  }

  datatype Step =
    | Open(e: nat)
    | Publish(e: nat, content: nat)
    | Abandon(e: nat)
    | Acquire(w: nat, version: nat)
    | Reload(w: nat)
    | Write(w: nat)
    | Release(w: nat)
    | Crash(w: nat)
    | LoseLock(w: nat)

  predicate Enabled(s: State, step: Step) {
    match step
    case Open(e) => s.holder.Free?
    case Publish(e, _) => s.holder == Editor(e)
    case Abandon(e) => s.holder == Editor(e)
    case Acquire(w, version) => s.holder.Free? && w < |s.workers| && s.workers[w].Idle? && 1 <= version <= |s.plans|
    case Reload(w) => w < |s.workers| && s.workers[w].Reloading?
    case Write(w) => w < |s.workers| && s.workers[w].Writing?
    case Release(w) => w < |s.workers| && s.workers[w].Writing?
    case Crash(w) => w < |s.workers| && !s.workers[w].Idle?
    case LoseLock(w) => w < |s.workers| && s.holder == Worker(w)
  }

  /** Publishing the content that is current already makes no new plan. */
  function Published(plans: seq<nat>, content: nat): seq<nat> {
    if plans != [] && plans[|plans| - 1] == content then plans else plans + [content]
  }

  function Unlocked(s: State, w: nat): Holder { if s.holder == Worker(w) then Free else s.holder }

  function After(s: State, step: Step): State
    requires Enabled(s, step)
  {
    match step
    case Open(e) => s.(holder := Editor(e))
    case Publish(e, content) => s.(plans := Published(s.plans, content), holder := Free)
    case Abandon(e) => s.(holder := Free)
    case Acquire(w, version) => s.(holder := Worker(w), workers := s.workers[w := Reloading(version)])
    case Reload(w) =>
      if s.workers[w].version == s.Current() then s.(workers := s.workers[w := Writing(s.workers[w].version)])
      else s.(holder := Unlocked(s, w), workers := s.workers[w := Idle])
    case Write(w) => s.(writes := s.writes + [s.workers[w].version])
    case Release(w) => s.(holder := Unlocked(s, w), workers := s.workers[w := Idle])
    case Crash(w) => s.(holder := Unlocked(s, w), workers := s.workers[w := Idle])
    case LoseLock(w) => s.(holder := Free)
  }

  predicate Init(s: State) {
    s.plans == [] && s.holder.Free? && s.writes == [] && forall w :: 0 <= w < |s.workers| ==> s.workers[w].Idle?
  }

  ghost predicate Execution(states: seq<State>, steps: seq<Step>) {
    && |states| == |steps| + 1 && Init(states[0])
    && forall k :: 0 <= k < |steps| ==> Enabled(states[k], steps[k]) && states[k + 1] == After(states[k], steps[k])
  }

  /** No database session that holds the lock dies while its worker goes on. */
  predicate LocksHeld(steps: seq<Step>) { forall k :: 0 <= k < |steps| ==> !steps[k].LoseLock? }

  predicate Nondecreasing(writes: seq<nat>) { forall i, j :: 0 <= i < j < |writes| ==> writes[i] <= writes[j] }

  // ---------- when a write is current ----------

  /** The step publishes content that differs from the current plan's. */
  predicate Changes(s: State, step: Step) {
    step.Publish? && (s.plans == [] || s.plans[|s.plans| - 1] != step.content)
  }

  /** No new plan was published from state `j` up to state `k`. */
  ghost predicate Unchanged(states: seq<State>, steps: seq<Step>, j: nat, k: nat)
    requires |states| == |steps| + 1 && k <= |steps|
  {
    forall i :: j <= i < k ==> !Changes(states[i], steps[i])
  }

  /** A writing worker read its plan in its last reload and has been writing since. */
  lemma {:induction false} LastReload(states: seq<State>, steps: seq<Step>, k: nat, w: nat) returns (j: nat)
    requires Execution(states, steps) && k < |states| && w < |states[k].workers| && states[k].workers[w].Writing?
    ensures j < k && steps[j] == Reload(w) && forall i :: j < i < k ==> steps[i] != Reload(w)
    ensures forall i :: j < i <= k ==> w < |states[i].workers| && states[i].workers[w].Writing?
    ensures states[k].workers[w].version == states[j].Current() == states[j + 1].Current()
  {
    var before := states[k - 1];
    assert states[k] == After(before, steps[k - 1]);
    if steps[k - 1] == Reload(w) {
      j := k - 1;
    } else {
      j := LastReload(states, steps, k - 1, w);
    }
  }

  /** Versions only count up, and stand still exactly while nothing new is published. */
  lemma {:induction false} CurrentGrows(states: seq<State>, steps: seq<Step>, j: nat, k: nat)
    requires Execution(states, steps) && j <= k < |states|
    ensures states[j].Current() <= states[k].Current()
    ensures states[j].Current() == states[k].Current() <==> Unchanged(states, steps, j, k)
    decreases k
  {
    if j < k {
      CurrentGrows(states, steps, j, k - 1);
      assert states[k] == After(states[k - 1], steps[k - 1]);
    }
  }

  /**
   Whatever happens to locks and sessions: a write carries the version that was current in
   the worker's last reload, and it is current when it is sent exactly when no edit
   published anything new in between.
   */
  lemma WriteCurrentExactly(states: seq<State>, steps: seq<Step>, k: nat) returns (j: nat)
    requires Execution(states, steps) && k < |steps| && steps[k].Write?
    ensures j < k && steps[j] == Reload(steps[k].w) && forall i :: j < i < k ==> steps[i] != Reload(steps[k].w)
    ensures states[k + 1].writes == states[k].writes + [states[j].Current()]
    ensures states[j].Current() <= states[k].Current()
    ensures states[j].Current() == states[k].Current() <==> Unchanged(states, steps, j, k)
  {
    j := LastReload(states, steps, k, steps[k].w);
    CurrentGrows(states, steps, j, k);
  }

  // ---------- what the lock gives ----------

  /** Whoever is at work holds the lock. */
  predicate LockedWhenBusy(s: State) {
    forall w :: 0 <= w < |s.workers| && !s.workers[w].Idle? ==> s.holder == Worker(w)
  }

  lemma StepKeeps(s: State, step: Step)
    requires LockedWhenBusy(s) && Enabled(s, step) && !step.LoseLock?
    ensures LockedWhenBusy(After(s, step))
  {
  }

  lemma {:induction false} Reachable(states: seq<State>, steps: seq<Step>, k: nat)
    requires Execution(states, steps) && LocksHeld(steps) && k < |states|
    ensures LockedWhenBusy(states[k])
  {
    if k > 0 {
      Reachable(states, steps, k - 1);
      StepKeeps(states[k - 1], steps[k - 1]);
    }
  }

  /** While the lock stays with a worker nothing is published: what it loads cannot change under it. */
  lemma LockFreezesPlans(states: seq<State>, steps: seq<Step>, j: nat, k: nat, w: nat)
    requires Execution(states, steps) && j <= k < |states|
    requires forall i :: j <= i < k ==> states[i].holder == Worker(w)
    ensures states[j].plans == states[k].plans
    decreases k
  {
    if j < k {
      LockFreezesPlans(states, steps, j, k - 1, w);
      assert states[k] == After(states[k - 1], steps[k - 1]);
    }
  }

  /** Every write for a plan happens while that plan is current: an edit cannot come in between. */
  lemma WritesAreCurrent(states: seq<State>, steps: seq<Step>, k: nat)
    requires Execution(states, steps) && LocksHeld(steps) && k < |steps| && steps[k].Write?
    ensures states[k + 1].writes == states[k].writes + [states[k].Current()]
  {
    var w := steps[k].w;
    var j := LastReload(states, steps, k, w);
    forall i | j <= i < k ensures !Changes(states[i], steps[i]) {
      Reachable(states, steps, i);
      if i > j { assert states[i].workers[w].Writing?; }
    }
    var last := WriteCurrentExactly(states, steps, k);
    assert last == j;
  }

  /** While every write is current, the versions written never go back. */
  lemma {:induction false} CurrentWritesInOrder(states: seq<State>, steps: seq<Step>, k: nat)
    requires Execution(states, steps) && k < |states|
    requires forall i :: 0 <= i < k && steps[i].Write? ==> states[i + 1].writes == states[i].writes + [states[i].Current()]
    ensures Nondecreasing(states[k].writes)
    ensures forall i :: 0 <= i < |states[k].writes| ==> states[k].writes[i] <= states[k].Current()
  {
    if k > 0 {
      CurrentWritesInOrder(states, steps, k - 1);
      assert states[k] == After(states[k - 1], steps[k - 1]);
    }
  }

  /** So the plan versions that reach the site never go back, over any interleaving. */
  lemma VersionsNeverGoBack(states: seq<State>, steps: seq<Step>, k: nat)
    requires Execution(states, steps) && LocksHeld(steps) && k < |states|
    ensures Nondecreasing(states[k].writes)
    ensures forall i :: 0 <= i < |states[k].writes| ==> states[k].writes[i] <= states[k].Current()
  {
    forall i | 0 <= i < k && steps[i].Write? ensures states[i + 1].writes == states[i].writes + [states[i].Current()] {
      WritesAreCurrent(states, steps, i);
    }
    CurrentWritesInOrder(states, steps, k);
  }

  /** An edit never publishes while a worker is writing, and a superseded worker writes nothing. */
  lemma EditsExcludeWriters(states: seq<State>, steps: seq<Step>, k: nat, w: nat)
    requires Execution(states, steps) && LocksHeld(steps) && k < |steps|
    ensures steps[k].Publish? && w < |states[k].workers| ==> states[k].workers[w].Idle?
    ensures steps[k] == Reload(w) && states[k].workers[w].version != states[k].Current() ==>
              states[k + 1].workers[w].Idle? && states[k + 1].writes == states[k].writes
  {
    Reachable(states, steps, k);
  }

  // ---------- the lock is what the guarantee rests on ----------

  const STALE_STEPS := [
    Open(0), Publish(0, 7), Acquire(0, 1), Reload(0), LoseLock(0),
    Open(0), Publish(0, 8), Acquire(1, 2), Reload(1), Write(1), Write(0)]

  /**
   When the session that holds the lock is lost while its worker goes on, version 1 is
   written after version 2: nothing between the reload and the writes looks at the plan again.
   */
  lemma LostLockWritesStale() returns (states: seq<State>)
    ensures Execution(states, STALE_STEPS) && states[|STALE_STEPS|].writes == [2, 1]
  {
    var s0 := State([], Free, [Idle, Idle], []);
    var s1 := After(s0, Open(0));
    var s2 := After(s1, Publish(0, 7));
    var s3 := After(s2, Acquire(0, 1));
    var s4 := After(s3, Reload(0));
    var s5 := After(s4, LoseLock(0));
    var s6 := After(s5, Open(0));
    var s7 := After(s6, Publish(0, 8));
    var s8 := After(s7, Acquire(1, 2));
    var s9 := After(s8, Reload(1));
    var s10 := After(s9, Write(1));
    var s11 := After(s10, Write(0));
    states := [s0, s1, s2, s3, s4, s5, s6, s7, s8, s9, s10, s11];
    assert s11.writes == [2, 1];
  }
}
