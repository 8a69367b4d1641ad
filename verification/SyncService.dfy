/** One synchronization operation: lock, reload, fence, and the run itself. */
module SyncService {
  import opened Wrappers
  import opened SiteState
  import opened SiteGateway
  import opened SiteSafety
  import opened SiteSync
  import opened SiteRunner
  import ManagedSync

  datatype OperationStatus = Pending | Running | Uncertain | RetryableFailed | Succeeded | ManualRequired | Superseded

  predicate Finished(status: OperationStatus) { status.Succeeded? || status.ManualRequired? || status.Superseded? }

  /** The stored operation, the plan its relation points at (0 for none), and the site lock. */
  class OperationStore {
    const plan: nat
    /** The store answers, and nobody else holds the lock. */
    const reachable: bool
    var status: OperationStatus
    var current: nat
    var held: bool

    constructor (plan: nat, reachable: bool)
      ensures this.plan == plan && this.reachable == reachable && !held
    {
      this.plan, this.reachable, status, current, held := plan, reachable, Pending, 0, false;
    }

    /** Without the site lock others may publish plans and finish the operation at any time. */
    method Load() returns (loaded: bool)
      modifies this`status, this`current
      ensures held ==> unchanged(this)
      ensures reachable ==> loaded
    {
      if !held { status, current := *, *; }
      loaded := true;
      if !reachable { loaded := *; }
    }

    /** The lock is granted to one session at a time, at once or not at all. */
    method Acquire() returns (ok: bool)
      modifies this`held
      ensures held == ok
      ensures reachable ==> ok
    {
      ok := true;
      if !reachable { ok := *; }
      held := ok;
    }

    method Release()
      modifies this`held
      ensures !held
    {
      held := false;
    }

    method Supersede() returns (ok: bool)
      modifies this`status
      ensures ok ==> status == Superseded
      ensures !ok ==> status == old(status)
      ensures reachable ==> ok
    {
      ok := true;
      if !reachable { ok := *; }
      if ok { status := Superseded; }
    }
  }

  datatype Outcome = Unloadable | AlreadyFinished | Busy | Outdated | NotWritable | Refused | Completed | Stopped(why: Failure)

  /** Nothing was sent to the site and nothing was confirmed. */
  twostate predicate NothingSent(gateway: Gateway, batch: ManagedSync.BatchGateway, ledger: Ledger)
    reads gateway, batch, ledger
  {
    unchanged(gateway) && unchanged(batch) && unchanged(ledger)
  }

  /**
   Runs an operation. The site is only touched after the reload under the lock showed the
   plan to be the current one and the operation to be open; in every other case site and
   store stay as they were. Completion, by either path, means that the last state read is
   exactly as planned and unchanged elsewhere. The lock is always given back.
   */
  method Run(
    store: OperationStore, run: SiteRun, batch: ManagedSync.BatchGateway, operation: nat,
    writable: bool, query: ManagedSync.Query, approved: bool, vault: nat -> bool)
    returns (outcome: Outcome, ghost fenced: bool, ghost before: Site, ghost after: Site)
    requires run.Valid() && KeysDistinct(run.plan.groups)
    modifies store, run`resources, run.gateway, run.ledger, batch
    ensures !store.held
    ensures fenced ==> (store.current == 0 || store.current == store.plan)
    ensures fenced ==> writable && store.status in {Pending, Running, Uncertain, RetryableFailed}
    ensures outcome == AlreadyFinished ==> store.status in {Succeeded, ManualRequired, Superseded}
    ensures !fenced ==> outcome !in {Completed} && !outcome.Stopped? && NothingSent(run.gateway, batch, run.ledger)
    ensures outcome == Outdated ==> store.status == Superseded && store.current != 0 && store.current != store.plan
    ensures store.reachable ==> outcome != Unloadable && outcome != Busy
    ensures store.reachable && outcome == NotWritable ==> !writable
    ensures store.reachable && writable && outcome != AlreadyFinished && outcome != Outdated ==> fenced
    ensures outcome == Completed ==>
              && run.ledger.completed
              && Exact(run.plan.codec, run.plan.groups, run.resources, before, after)
    ensures outcome != Completed && !old(run.ledger.completed) ==> !run.ledger.completed
    ensures Safe(run.plan, run.gateway.log) || run.gateway.log == old(run.gateway.log)
  {
    fenced, before, after := false, run.gateway.site, run.gateway.site;
    var loaded := store.Load();
    if !loaded { store.Release(); return Unloadable, fenced, before, after; }
    if Finished(store.status) { store.Release(); return AlreadyFinished, fenced, before, after; }
    var acquired := store.Acquire();
    if !acquired { return Busy, fenced, before, after; }
    loaded := store.Load();
    if !loaded {
      outcome := Unloadable;
    } else if store.current != 0 && store.current != store.plan {
      var recorded := store.Supersede();
      outcome := if recorded then Outdated else Unloadable;
    } else if Finished(store.status) {
      outcome := AlreadyFinished;
    } else if !writable {
      outcome := NotWritable;
    } else {
      fenced := true;
      outcome, before, after := Synchronize(run, batch, operation, query, approved, vault);
    }
    store.Release();
  }

  /** Takes the batch path where the site offers it, and the staged path where it does not. */
  method Synchronize(
    run: SiteRun, batch: ManagedSync.BatchGateway, operation: nat, query: ManagedSync.Query, approved: bool, vault: nat -> bool)
    returns (outcome: Outcome, ghost before: Site, ghost after: Site)
    requires run.Valid() && KeysDistinct(run.plan.groups)
    modifies run`resources, run.gateway, run.ledger, batch
    ensures outcome in {Completed, Refused} || outcome.Stopped?
    ensures query in {ManagedSync.Denied, ManagedSync.NotFound, ManagedSync.Unavailable} ==>
              unchanged(batch) && outcome != Refused
    ensures query.Capable? ==> unchanged(run.gateway)
    ensures outcome == Refused ==> unchanged(run.gateway) && unchanged(batch) && unchanged(run.ledger)
    ensures outcome == Refused <==>
              || query.Broken?
              || (query.Capable? && !(approved && ManagedSync.Announced(query.features) && ManagedSync.Fits(query.limits, run.plan)))
    ensures outcome == Completed ==>
              && run.ledger.completed
              && Exact(run.plan.codec, run.plan.groups, run.resources, before, after)
    ensures outcome != Completed ==> run.ledger.completed == old(run.ledger.completed)
    ensures Safe(run.plan, run.gateway.log) || run.gateway.log == old(run.gateway.log)
  {
    before, after := run.gateway.site, run.gateway.site;
    var route := ManagedSync.RouteOf(query, approved, run.plan);
    ManagedSync.RouteExactly(query, approved, run.plan);
    match route {
      case Refused => outcome := Refused;
      case Managed =>
        run.Reload();
        var failure: Option<Failure>;
        ghost var first, last: ManagedSync.Report;
        ghost var seen, left;
        failure, first, last, seen, left := ManagedSync.RunManagedSite(run.plan, operation, batch, run.ledger, vault);
        before, after := first.site, last.site;
        outcome := if failure.None? then Completed else Stopped(failure.value);
      case Staged =>
        var failure, first, last := RunSite(run);
        before, after := first, last;
        outcome := if failure.None? then Completed else Stopped(failure.value);
    }
  }
}
