/**
 A whole-site run from the first read to the completed operation: what a steady run ends with,
 and what a second run then writes.
 */
module SiteRunner {
  import opened Wrappers
  import opened Sequences
  import opened ChannelCodec
  import opened SiteState
  import opened SiteGateway
  import opened SiteSafety
  import opened SiteEffects
  import opened SiteWorld
  import opened SiteSync
  import opened SiteStages

  /** Refuses the whole run when any managed channel is ambiguous. */
  method CheckOwnership(run: SiteRun, actual: Site) returns (failure: Option<Failure>)
    requires run.Valid()
    ensures failure.None? <==> forall k :: 0 <= k < |run.resources| ==>
                                 Owned(run.resources[k].desired.tag, run.resources[k].binding.external, actual.channels)
  {
    var i := 0;
    while i < |run.resources|
      invariant i <= |run.resources|
      invariant forall k :: 0 <= k < i ==>
                  Owned(run.resources[k].desired.tag, run.resources[k].binding.external, actual.channels)
    {
      var r := run.resources[i];
      var found := LocateManagedChannel(r.desired.tag, r.binding.external, actual.channels);
      LocateOwned(r.desired.tag, r.binding.external, actual.channels);
      if found.Failure? { return Some(found.error); }
      i := i + 1;
    }
    failure := None;
  }

  lemma ReadyOwned(plan: Plan, w: World, k: nat)
    requires Ready(plan, w) && k < |w.resources|
    ensures Owned(w.resources[k].desired.tag, w.resources[k].binding.external, w.site.channels)
  {
    assert ResourceReady(plan, k, w);
    OwnedWhenFit(w.resources[k].desired.tag, w.resources[k].binding.external, w.site.channels);
  }

  /** Safety shutdowns come before anything that depends on prices or credentials. */
  method ShutDownAll(run: SiteRun, actual: Site) returns (failure: Option<Failure>)
    requires run.Valid() && Safe(run.plan, run.gateway.log) && Looked(actual) in run.gateway.log
    modifies run`resources, run.gateway, run.ledger`bindings
    ensures run.Valid() && old(run.gateway.log) <= run.gateway.log && Safe(run.plan, run.gateway.log)
    ensures failure.None? ==> AllOff(run.plan, run.gateway.log)
    ensures run.gateway.steady && old(Ready(run.plan, run.State())) && actual == old(run.gateway.site) ==>
              failure.None? && ShutStage(run.plan, old(run.State()), run.State(), |run.plan.resources|)
  {
    var plan := run.plan;
    ghost var w0 := run.State();
    ghost var calm := run.gateway.steady && Ready(plan, w0) && actual == w0.site;
    var i: nat := 0;
    if calm { ShutStart(plan, w0); }
    while i < |plan.resources|
      invariant i <= |plan.resources| && run.Valid()
      invariant old(run.gateway.log) <= run.gateway.log && Safe(plan, run.gateway.log)
      invariant forall k: nat :: k < i && !plan.resources[k].desired.enabled ==> WasOff(run.gateway.log, k)
      invariant calm ==> ShutStage(plan, w0, run.State(), i)
    {
      ghost var before := run.State();
      ghost var logged := run.gateway.log;
      if !plan.resources[i].desired.enabled {
        StillIn(old(run.gateway.log), run.gateway.log, Looked(actual));
        if calm { ReadyToDisable(plan, w0, before, i); }
        failure := run.DisableResource(i, actual);
        if failure.Some? { return; }
        WasOffAllGrow(plan, logged, run.gateway.log, i);
        if calm { ShutOne(plan, w0, before, i, run.State()); }
      } else if calm {
        ShutSkip(plan, w0, before, i);
      }
      i := i + 1;
    }
    failure := None;
  }

  lemma WasOffAllGrow(plan: Plan, a: seq<Event>, b: seq<Event>, n: nat)
    requires a <= b && n <= |plan.resources|
    requires forall k: nat :: k < n && !plan.resources[k].desired.enabled ==> WasOff(a, k)
    ensures forall k: nat :: k < n && !plan.resources[k].desired.enabled ==> WasOff(b, k)
  {
    forall k: nat | k < n && !plan.resources[k].desired.enabled ensures WasOff(b, k) { WasOffGrows(a, b, k); }
  }

  /** Only the group ratios moved. */
  ghost predicate Repriced(plan: Plan, a: World, b: World) {
    && b == a.(site := a.site.(ratios := b.site.ratios), writes := b.writes)
    && RatiosSet(b.site.ratios, plan.groups) && AllAcceptable(b.site.ratios)
    && (forall k <- a.site.ratios :: k !in KeysOf(plan.groups) ==> k in b.site.ratios && b.site.ratios[k] == a.site.ratios[k])
    && (RatiosSet(a.site.ratios, plan.groups) ==> b == a)
  }

  method CheckBasis(run: SiteRun) returns (ok: bool)
    requires Safe(run.plan, run.gateway.log) && AllOff(run.plan, run.gateway.log)
    modifies run.gateway`site, run.gateway`basis, run.gateway`nextId, run.gateway`log
    ensures run.gateway.log == old(run.gateway.log) + [BasisChecked(ok)]
    ensures Safe(run.plan, run.gateway.log) && AllOff(run.plan, run.gateway.log)
    ensures ok ==> BasisPassed(run.gateway.log)
    ensures run.gateway.steady ==> ok == (run.gateway.basis == run.plan.basis) && run.State() == old(run.State())
  {
    ok := run.gateway.CheckBasis(run.plan.basis);
    SafeSnoc(run.plan, old(run.gateway.log), BasisChecked(ok));
    AllOffGrows(run.plan, old(run.gateway.log), run.gateway.log);
    assert run.gateway.log[|old(run.gateway.log)|] == BasisChecked(ok);
    assert ok ==> PassesBasis(run.gateway.log[|old(run.gateway.log)|]);
  }

  /** Writes the merged group ratios when they differ from the ones read. */
  method WriteRatios(run: SiteRun, actual: Site) returns (failure: Option<Failure>)
    requires KeysDistinct(run.plan.groups)
    requires Safe(run.plan, run.gateway.log) && AllOff(run.plan, run.gateway.log) && BasisPassed(run.gateway.log)
    requires Looked(actual) in run.gateway.log
    modifies run.gateway
    ensures old(run.gateway.log) <= run.gateway.log && Safe(run.plan, run.gateway.log)
    ensures run.gateway.steady && old(SiteReady(run.plan, run.State())) && actual == old(run.gateway.site) ==>
              failure.None? && Repriced(run.plan, old(run.State()), run.State())
  {
    var plan := run.plan;
    ghost var a := run.State();
    MergeRatiosExact(actual.ratios, plan.groups);
    var merged := MergePlanRatios(actual.ratios, plan.groups);
    if merged.Failure? { return Some(merged.error); }
    var ratios, changed := merged.value.0, merged.value.1;
    if AllAcceptable(actual.ratios) { MergedAcceptable(actual.ratios, plan.groups, ratios, changed); }
    if !changed { return None; }
    SafeSnoc(plan, run.gateway.log, RatiosWritten(ratios, actual));
    var ok := run.gateway.SetGroupRatios(ratios, actual);
    failure := if ok then None else Some(GatewayFailed);
  }

  /** Checks the pricing basis, reads the ratios and writes the planned ones. */
  method UpdatePrices(run: SiteRun) returns (failure: Option<Failure>)
    requires KeysDistinct(run.plan.groups)
    requires Safe(run.plan, run.gateway.log) && AllOff(run.plan, run.gateway.log)
    modifies run.gateway
    ensures old(run.gateway.log) <= run.gateway.log && Safe(run.plan, run.gateway.log)
    ensures run.gateway.steady && old(SiteReady(run.plan, run.State())) ==>
              failure.None? && Repriced(run.plan, old(run.State()), run.State())
  {
    var ok := CheckBasis(run);
    if !ok { return Some(BasisChanged); }
    ghost var checked := run.gateway.log;
    var actual := run.Look();
    if actual.None? { return Some(GatewayFailed); }
    AllOffGrows(run.plan, old(run.gateway.log), run.gateway.log);
    BasisPassedGrows(checked, run.gateway.log);
    failure := WriteRatios(run, actual.value);
  }

  /** Rereads the ratios, checks the pricing basis again, and confirms the prices. */
  method ConfirmPrices(run: SiteRun) returns (failure: Option<Failure>)
    requires Safe(run.plan, run.gateway.log) && AllOff(run.plan, run.gateway.log)
    requires run.gateway.steady == run.ledger.steady
    modifies run.gateway`site, run.gateway`basis, run.gateway`nextId, run.gateway`log, run.ledger`pricesConfirmed
    ensures old(run.gateway.log) <= run.gateway.log && Safe(run.plan, run.gateway.log)
    ensures failure.None? ==> Cleared(run.plan, run.gateway.log)
    ensures run.gateway.steady ==> run.State() == old(run.State())
    ensures run.gateway.steady && old(RatiosHold(run.gateway.site, run.plan.groups) && run.gateway.basis == run.plan.basis) ==>
              failure.None?
  {
    var actual := run.Look();
    if actual.None? { return Some(GatewayFailed); }
    failure := VerifyGroups(run.plan.groups, actual.value, false);
    if failure.Some? { return; }
    run.Record(PricesRead(actual.value));
    ghost var logged := run.gateway.log;
    assert ReadsPrices(logged[|logged| - 1]);
    AllOffGrows(run.plan, old(run.gateway.log), logged);
    var ok := CheckBasis(run);
    assert ReadsPrices(run.gateway.log[|logged| - 1]) && (ok ==> PassesBasis(run.gateway.log[|logged|]));
    if !ok { return Some(BasisChanged); }
    ok := run.ledger.ConfirmPrices();
    failure := if ok then None else Some(StoreFailed);
  }

  /** Sets the prices, rereads them, and confirms them. */
  method SetPrices(run: SiteRun) returns (failure: Option<Failure>)
    requires run.Valid() && KeysDistinct(run.plan.groups)
    requires Safe(run.plan, run.gateway.log) && AllOff(run.plan, run.gateway.log)
    modifies run.gateway, run.ledger`pricesConfirmed
    ensures run.Valid() && old(run.gateway.log) <= run.gateway.log && Safe(run.plan, run.gateway.log)
    ensures failure.None? ==> Cleared(run.plan, run.gateway.log)
    ensures run.gateway.steady && old(SiteReady(run.plan, run.State())) ==>
              failure.None? && Repriced(run.plan, old(run.State()), run.State())
  {
    ghost var calm := run.gateway.steady && SiteReady(run.plan, run.State());
    failure := UpdatePrices(run);
    if failure.Some? { return; }
    AllOffGrows(run.plan, old(run.gateway.log), run.gateway.log);
    if calm { SetRatiosHold(run.gateway.site, run.plan.groups); }
    failure := ConfirmPrices(run);
  }

  /** Applies every enabled resource, and every disabled one whose channel needs a rotated credential. */
  method ApplyAll(run: SiteRun) returns (failure: Option<Failure>)
    requires run.Valid() && Safe(run.plan, run.gateway.log) && Cleared(run.plan, run.gateway.log)
    modifies run`resources, run.gateway, run.ledger`bindings
    ensures run.Valid() && old(run.gateway.log) <= run.gateway.log && Safe(run.plan, run.gateway.log)
    ensures failure.None? ==> AllOn(run.plan, run.gateway.log)
    ensures run.gateway.steady && old(ApplyStage(run.plan, run.State(), run.State(), 0)) ==>
              failure.None? && ApplyStage(run.plan, old(run.State()), run.State(), |run.plan.resources|)
  {
    var plan := run.plan;
    ghost var w0 := run.State();
    ghost var calm := run.gateway.steady && ApplyStage(plan, w0, w0, 0);
    var i: nat := 0;
    while i < |plan.resources|
      invariant i <= |plan.resources| && run.Valid()
      invariant old(run.gateway.log) <= run.gateway.log && Safe(plan, run.gateway.log)
      invariant forall k: nat :: k < i && plan.resources[k].desired.enabled ==> InService(run.gateway.log, k)
      invariant calm ==> ApplyStage(plan, w0, run.State(), i)
    {
      ghost var before := run.State();
      ghost var logged := run.gateway.log;
      if !Skipped(run.resources[i]) {
        ClearedGrows(plan, old(run.gateway.log), run.gateway.log);
        if calm { ReadyToApply(plan, w0, before, i); }
        failure := run.ApplyResource(i);
        if failure.Some? { return; }
        InServiceAllGrow(plan, logged, run.gateway.log, i);
        if calm { ApplyOne(plan, w0, before, i, run.State()); }
      } else if calm {
        ApplySkip(plan, w0, before, i);
      }
      i := i + 1;
    }
    failure := None;
  }

  lemma InServiceAllGrow(plan: Plan, a: seq<Event>, b: seq<Event>, n: nat)
    requires a <= b && n <= |plan.resources|
    requires forall k: nat :: k < n && plan.resources[k].desired.enabled ==> InService(a, k)
    ensures forall k: nat :: k < n && plan.resources[k].desired.enabled ==> InService(b, k)
  {
    forall k: nat | k < n && plan.resources[k].desired.enabled ensures InService(b, k) { InServiceGrows(a, b, k); }
  }

  /** Only the selectable groups moved. */
  ghost predicate Shown(plan: Plan, a: World, b: World) {
    && b == a.(site := a.site.(visible := b.site.visible), writes := b.writes)
    && VisibilitySet(b.site.visible, plan.groups)
    && (forall k <- a.site.visible :: k !in KeysOf(plan.groups) ==> k in b.site.visible && b.site.visible[k] == a.site.visible[k])
    && (VisibilitySet(a.site.visible, plan.groups) ==> b == a)
  }

  /** Makes groups selectable or hides them, once prices and channels are in place. */
  method SetVisibility(run: SiteRun) returns (failure: Option<Failure>)
    requires run.Valid() && KeysDistinct(run.plan.groups) && Safe(run.plan, run.gateway.log)
    requires Cleared(run.plan, run.gateway.log) && AllOn(run.plan, run.gateway.log)
    modifies run.gateway
    ensures old(run.gateway.log) <= run.gateway.log && Safe(run.plan, run.gateway.log)
    ensures run.gateway.steady && NamesVisible(run.plan.groups) ==>
              failure.None? && Shown(run.plan, old(run.State()), run.State())
  {
    var plan := run.plan;
    ghost var a := run.State();
    var actual := run.Look();
    if actual.None? { return Some(GatewayFailed); }
    ClearedGrows(plan, old(run.gateway.log), run.gateway.log);
    AllOnGrows(plan, old(run.gateway.log), run.gateway.log);
    MergeVisibilityExact(actual.value.visible, plan.groups);
    if NamesVisible(plan.groups) { NamedNothingDiffers(actual.value.visible, plan.groups); }
    var visible, changed := MergePlanVisibility(actual.value.visible, plan.groups);
    if !changed { return None; }
    SafeSnoc(plan, run.gateway.log, VisibilityWritten(visible, actual.value));
    var ok := run.gateway.SetUserUsableGroups(visible, actual.value);
    failure := if ok then None else Some(GatewayFailed);
  }

  lemma AllOnGrows(plan: Plan, a: seq<Event>, b: seq<Event>)
    requires a <= b && AllOn(plan, a)
    ensures AllOn(plan, b)
  {
    forall i: nat | i < |plan.resources| && plan.resources[i].desired.enabled ensures InService(b, i) { InServiceGrows(a, b, i); }
  }

  /** The last read, compared with the plan and with the first read. */
  method VerifyFinal(run: SiteRun, baseline: Site) returns (r: Result<Site, Failure>)
    requires Safe(run.plan, run.gateway.log)
    modifies run.gateway`site, run.gateway`basis, run.gateway`nextId, run.gateway`log
    ensures old(run.gateway.log) <= run.gateway.log && Safe(run.plan, run.gateway.log)
    ensures r.Success? ==>
              && run.gateway.log == old(run.gateway.log) + [Looked(r.value)]
              && Exact(run.plan.codec, run.plan.groups, run.resources, baseline, r.value)
    ensures run.gateway.steady ==> run.State() == old(run.State())
    ensures run.gateway.steady && Exact(run.plan.codec, run.plan.groups, run.resources, baseline, old(run.gateway.site)) ==>
              r.Success?
  {
    var state := run.gateway.Look();
    if state.None? { return Failure(GatewayFailed); }
    SafeSnoc(run.plan, old(run.gateway.log), Looked(state.value));
    var failure := VerifySite(run.plan.codec, run.plan.groups, run.resources, baseline, state.value);
    r := if failure.Some? then Failure(failure.value) else Success(state.value);
  }

  method CloseOperation(run: SiteRun) returns (failure: Option<Failure>, ghost passed: bool)
    requires run.gateway.steady == run.ledger.steady
    requires Safe(run.plan, run.gateway.log) && AllOff(run.plan, run.gateway.log)
    modifies run.gateway`site, run.gateway`basis, run.gateway`nextId, run.gateway`log, run.ledger`completed
    ensures Safe(run.plan, run.gateway.log) && run.gateway.log == old(run.gateway.log) + [BasisChecked(passed)]
    ensures failure.None? ==> passed && run.ledger.completed
    ensures failure.Some? ==> run.ledger.completed == old(run.ledger.completed)
    ensures run.gateway.steady ==> run.State() == old(run.State())
    ensures run.gateway.steady && old(run.gateway.basis) == run.plan.basis ==> failure.None?
  {
    var ok := CheckBasis(run);
    passed := ok;
    if !ok { return Some(BasisChanged), passed; }
    ok := run.ledger.Complete();
    failure := if ok then None else Some(StoreFailed);
  }

  /** Verifies, checks the pricing once more, and completes the operation. */
  method Finish(run: SiteRun, baseline: Site) returns (failure: Option<Failure>, final: Site)
    requires run.Valid() && Safe(run.plan, run.gateway.log) && AllOff(run.plan, run.gateway.log)
    modifies run.gateway`site, run.gateway`basis, run.gateway`nextId, run.gateway`log, run.ledger`completed
    ensures run.Valid() && old(run.gateway.log) <= run.gateway.log && Safe(run.plan, run.gateway.log)
    ensures failure.None? ==>
              && run.ledger.completed
              && run.gateway.log == old(run.gateway.log) + [Looked(final), BasisChecked(true)]
              && Exact(run.plan.codec, run.plan.groups, run.resources, baseline, final)
    ensures failure.Some? ==> run.ledger.completed == old(run.ledger.completed)
    ensures run.gateway.steady ==> run.State() == old(run.State())
    ensures run.gateway.steady && old(Finishable(run.plan, run.resources, baseline, run.State())) ==> failure.None?
  {
    var verified := VerifyFinal(run, baseline);
    if verified.Failure? { return Some(verified.error), baseline; }
    final := verified.value;
    AllOffGrows(run.plan, old(run.gateway.log), run.gateway.log);
    ghost var passed;
    failure, passed := CloseOperation(run);
    TwoMore(old(run.gateway.log), Looked(final), BasisChecked(passed));
  }

  lemma TwoMore(log: seq<Event>, x: Event, y: Event)
    ensures log + [x] + [y] == log + [x, y] && log <= log + [x, y]
  {
  }

  ghost predicate Finishable(plan: Plan, resources: seq<Resource>, baseline: Site, w: World) {
    w.basis == plan.basis && Exact(plan.codec, plan.groups, resources, baseline, w.site)
  }

  // ---------- the steady run as a whole ----------

  /** After shutting down and pricing, applying can start. */
  lemma PricedStage(plan: Plan, w0: World, w1: World, w2: World)
    requires Ready(plan, w0) && ShutStage(plan, w0, w1, |plan.resources|) && Repriced(plan, w1, w2)
    ensures ApplyStage(plan, w2, w2, 0)
  {
    forall k: nat | k < |plan.resources| ensures ResourceReady(plan, k, w2) && Pending(plan, k, w2, w2) {
      assert ResourceReady(plan, k, w1);
    }
    forall k: nat | k < |plan.resources| && !plan.resources[k].desired.enabled ensures OffSettled(plan, k, w2) {
      assert OffSettled(plan, k, w1);
    }
  }

  /** After the last stage everything is as planned, and what is not planned is as it was. */
  lemma StagesSettle(plan: Plan, w0: World, w1: World, w2: World, w3: World, w4: World)
    requires Ready(plan, w0) && ShutStage(plan, w0, w1, |plan.resources|) && Repriced(plan, w1, w2)
    requires ApplyStage(plan, w2, w3, |plan.resources|) && Shown(plan, w3, w4)
    ensures Settled(plan, w4) && SiteReady(plan, w4)
    ensures Kept(plan.groups, w0.site, w4.site)
  {
    forall k: nat | k < |plan.resources| ensures ResourceSettled(plan, k, w4) { assert ResourceSettled(plan, k, w3); }
  }

  /** Entries outside the plan have the values they had. */
  ghost predicate Kept(groups: seq<Group>, a: Site, b: Site) {
    && (forall k <- a.ratios :: k !in KeysOf(groups) ==> k in b.ratios && b.ratios[k] == a.ratios[k])
    && forall k <- a.visible :: k !in KeysOf(groups) ==> k in b.visible && b.visible[k] == a.visible[k]
  }

  lemma SettledFinishable(plan: Plan, w0: World, w: World)
    requires SiteReady(plan, w) && Settled(plan, w) && Kept(plan.groups, w0.site, w.site) && AllAcceptable(w0.site.ratios)
    requires forall k :: 0 <= k < |w.resources| ==> Similar(w.resources[k], plan.resources[k])
    ensures Finishable(plan, w.resources, w0.site, w)
  {
    SetRatiosHold(w.site, plan.groups);
    forall k | 0 <= k < |w.resources| ensures ChannelHolds(plan.codec, w.resources[k], w.site) {
      SettledHolds(plan, w, k);
    }
  }

  lemma SettledHolds(plan: Plan, w: World, k: nat)
    requires k < |w.resources| == |plan.resources| == |w.bindings| && Similar(w.resources[k], plan.resources[k])
    requires ResourceSettled(plan, k, w) && Fit(w.site.channels, w.nextId)
    ensures ChannelHolds(plan.codec, w.resources[k], w.site)
  {
    var r := w.resources[k];
    var matching := ChannelOf(w, r.desired.tag);
    TaggedHasTag(r.desired.tag, w.site.channels);
    if matching != [] {
      assert matching == [matching[0]] && matching[0] in matching;
      OwnerBound(matching[0], w.site.channels, w.nextId);
    }
    LocateOwned(r.desired.tag, r.binding.external, w.site.channels);
  }

  /** Everything is as planned already, and the confirmations that were loaded say so. */
  lemma QuietStages(plan: Plan, w0: World, w1: World, w2: World, w3: World, w4: World)
    requires Ready(plan, w0) && Settled(plan, w0)
    requires ShutStage(plan, w0, w1, |plan.resources|) && Repriced(plan, w1, w2)
    requires ApplyStage(plan, w2, w3, |plan.resources|) && Shown(plan, w3, w4)
    ensures SameSite(w0, w4)
  {
    assert QuietOff(plan, w0) by {
      forall k: nat | k < |plan.resources| && !plan.resources[k].desired.enabled ensures OffIn(TagOf(plan, k), w0.site) {
        assert ResourceSettled(plan, k, w0);
      }
    }
    assert SameSite(w1, w2);
    assert QuietOn(plan, w2) by {
      forall k: nat | k < |plan.resources|
        ensures if plan.resources[k].desired.enabled then AlreadyApplied(plan, k, w2) else !Rotates(w2.resources[k])
      {
        assert ResourceSettled(plan, k, w0) && w0.resources[k] == plan.resources[k];
        assert ResourceReady(plan, k, w1) && w2.resources[k] == w1.resources[k];
        if !plan.resources[k].desired.enabled { assert OffSettled(plan, k, w1); }
      }
    }
  }

  // ---------- the run ----------

  /** The stages between the ownership check and the final verification. */
  method RunStages(run: SiteRun, actual: Site) returns (failure: Option<Failure>)
    requires run.Valid() && KeysDistinct(run.plan.groups)
    requires Safe(run.plan, run.gateway.log) && Looked(actual) in run.gateway.log
    modifies run`resources, run.gateway, run.ledger`bindings, run.ledger`pricesConfirmed
    ensures run.Valid() && old(run.gateway.log) <= run.gateway.log && Safe(run.plan, run.gateway.log)
    ensures failure.None? ==> AllOff(run.plan, run.gateway.log)
    ensures run.gateway.steady && old(Ready(run.plan, run.State())) && actual == old(run.gateway.site) ==>
              failure.None? && Staged(run.plan, old(run.State()), run.State())
  {
    ghost var w0 := run.State();
    ghost var calm := run.gateway.steady && Ready(run.plan, w0) && actual == w0.site;
    failure := ShutDownAll(run, actual);
    if failure.Some? { return; }
    ghost var log1, w1 := run.gateway.log, run.State();
    failure := SetPrices(run);
    if failure.Some? { return; }
    ghost var log2, w2 := run.gateway.log, run.State();
    if calm { PricedStage(run.plan, w0, w1, w2); }
    failure := ApplyAll(run);
    if failure.Some? { return; }
    ghost var log3, w3 := run.gateway.log, run.State();
    ClearedGrows(run.plan, log2, log3);
    failure := SetVisibility(run);
    if failure.Some? { return; }
    AllOffGrows(run.plan, log3, run.gateway.log);
    if calm { StagesDone(run.plan, w0, w1, w2, w3, run.State()); }
  }

  lemma StagesDone(plan: Plan, w0: World, w1: World, w2: World, w3: World, w4: World)
    requires Ready(plan, w0) && ShutStage(plan, w0, w1, |plan.resources|) && Repriced(plan, w1, w2)
    requires ApplyStage(plan, w2, w3, |plan.resources|) && Shown(plan, w3, w4)
    ensures Staged(plan, w0, w4)
  {
    StagesSettle(plan, w0, w1, w2, w3, w4);
    if Settled(plan, w0) { QuietStages(plan, w0, w1, w2, w3, w4); }
  }

  /** The outcome of a steady run; where everything was as planned already, nothing was written. */
  ghost predicate Staged(plan: Plan, a: World, b: World) {
    && Settled(plan, b) && SiteReady(plan, b) && Kept(plan.groups, a.site, b.site)
    && (Settled(plan, a) ==> SameSite(a, b))
  }

  /** An operator switched the channel off, and the plan says that the relation is resumed. */
  ghost predicate Resumed(plan: Plan, w: World, i: nat) {
    && i < |plan.resources| && plan.resources[i].desired.enabled && plan.resources[i].relation in plan.resume
    && exists c <- w.site.channels :: c.tag == plan.resources[i].desired.tag && c.status == ManuallyDisabled
  }

  /** One channel carries the tag; it is enabled and as planned, and confirmed in the store. */
  ghost predicate BackInService(plan: Plan, w: World, i: nat) {
    && i < |plan.resources| && i < |w.bindings|
    && var d := plan.resources[i].desired;
       var matching := Tagged(d.tag, w.site.channels);
       && |matching| == 1 && matching[0].status == Enabled && plan.codec.matches(d, matching[0].tag, matching[0].config)
       && w.bindings[i] == Binding(Some(matching[0].id), Some(plan.version), Some(true), d.credential)
  }

  lemma SettledInService(plan: Plan, w0: World, w: World)
    requires Settled(plan, w)
    ensures forall i: nat :: Resumed(plan, w0, i) ==> BackInService(plan, w, i)
  {
    forall i: nat | Resumed(plan, w0, i) ensures BackInService(plan, w, i) {
      assert ResourceSettled(plan, i, w);
    }
  }

  /**
   Once every relation is resumed no lock is left, and without that the locks by hand are all
   that a plan lacks to be ready: it is ready exactly when no channel is locked.
   */
  lemma ReadyButForLocks(plan: Plan, all: set<nat>, w: World)
    requires forall i :: 0 <= i < |plan.resources| ==> plan.resources[i].relation in all
    requires Ready(plan.(resume := all), w)
    ensures Ready(plan, w) <==> forall i :: 0 <= i < |w.resources| ==> !ByHand(w.resources[i], plan.resume, w.site)
  {
    forall i: nat | i < |w.resources|
      ensures ResourceReady(plan, i, w) <==> !ByHand(w.resources[i], plan.resume, w.site)
    {
      assert ResourceReady(plan.(resume := all), i, w);
      var matching := ChannelOf(w, w.resources[i].desired.tag);
      if matching != [] { assert matching == [matching[0]]; }
    }
    assert TagsDistinct(plan) by {
      forall i, j | 0 <= i < j < |plan.resources| ensures TagOf(plan, i) != TagOf(plan, j) {
        assert TagOf(plan.(resume := all), i) != TagOf(plan.(resume := all), j);
      }
    }
  }

  /**
   Runs a whole-site plan. Whatever the site, other writers and lost replies do, every write
   was allowed when it was issued, and completion means that the last state read is exactly
   as planned and unchanged elsewhere since the first. A steady run that starts ready
   completes settled, and writes nothing when it starts settled.
   */
  method RunSite(run: SiteRun) returns (failure: Option<Failure>, baseline: Site, final: Site)
    requires run.Valid() && KeysDistinct(run.plan.groups)
    modifies run`resources, run.gateway, run.ledger
    ensures run.Valid() && Safe(run.plan, run.gateway.log)
    ensures failure.None? ==>
              && run.ledger.completed
              && |run.gateway.log| >= 2 && run.gateway.log[0] == Looked(baseline)
              && [Looked(final), BasisChecked(true)] == run.gateway.log[|run.gateway.log| - 2..]
              && Exact(run.plan.codec, run.plan.groups, run.resources, baseline, final)
    ensures failure.Some? ==> run.ledger.completed == old(run.ledger.completed)
    ensures run.gateway.steady && old(Ready(run.plan, run.State())) ==>
              && failure.None? && Staged(run.plan, old(run.State()), run.State())
              && forall i: nat :: Resumed(run.plan, old(run.State()), i) ==> BackInService(run.plan, run.State(), i)
  {
    baseline, final := run.gateway.site, run.gateway.site;
    run.gateway.NewSession();
    var started := run.ledger.Reachable();
    if !started { return Some(StoreFailed), baseline, final; }
    ghost var w0 := run.State();
    ghost var calm := run.gateway.steady && Ready(run.plan, w0);
    var actual := run.gateway.Look();
    if actual.None? { return Some(GatewayFailed), baseline, final; }
    SafeSnoc(run.plan, [], Looked(actual.value));
    baseline := actual.value;
    failure := CheckOwnership(run, baseline);
    if calm { AllOwned(run.plan, w0); }
    if failure.Some? { return; }
    failure := RunStages(run, baseline);
    if failure.Some? { return; }
    if calm {
      SettledFinishable(run.plan, w0, run.State());
      SettledInService(run.plan, w0, run.State());
    }
    failure, final := Finish(run, baseline);
  }

  lemma AllOwned(plan: Plan, w: World)
    requires Ready(plan, w)
    ensures forall k :: 0 <= k < |w.resources| ==>
              Owned(w.resources[k].desired.tag, w.resources[k].binding.external, w.site.channels)
  {
    forall k | 0 <= k < |w.resources|
      ensures Owned(w.resources[k].desired.tag, w.resources[k].binding.external, w.site.channels)
    {
      ReadyOwned(plan, w, k);
    }
  }

  // ---------- running again ----------

  /** A settled site with its confirmations loaded again is ready and settled. */
  lemma SettledReady(plan: Plan, w0: World, w: World)
    requires Ready(plan, w0) && SiteReady(plan, w) && Settled(plan, w)
    ensures var again := Reloaded(plan, w.bindings);
            Ready(again, w.(resources := again.resources)) && Settled(again, w.(resources := again.resources))
  {
    var again := Reloaded(plan, w.bindings);
    var v := w.(resources := again.resources);
    forall k: nat | k < |plan.resources| ensures ResourceReady(again, k, v) && ResourceSettled(again, k, v) {
      ResourceAgain(plan, w0, w, k);
    }
    assert TagsDistinct(again) by {
      forall i, j | 0 <= i < j < |again.resources| ensures TagOf(again, i) != TagOf(again, j) {
        assert TagOf(again, i) == TagOf(plan, i) && TagOf(again, j) == TagOf(plan, j);
      }
    }
  }

  lemma ResourceAgain(plan: Plan, w0: World, w: World, k: nat)
    requires Ready(plan, w0) && SiteReady(plan, w) && Settled(plan, w) && k < |plan.resources|
    ensures var again := Reloaded(plan, w.bindings);
            ResourceReady(again, k, w.(resources := again.resources)) &&
            ResourceSettled(again, k, w.(resources := again.resources))
  {
    assert ResourceReady(plan, k, w0) && ResourceSettled(plan, k, w);
    var matching := ChannelOf(w, TagOf(plan, k));
    TaggedHasTag(TagOf(plan, k), w.site.channels);
    if matching != [] {
      assert matching == [matching[0]];
      OwnerBound(matching[0], w.site.channels, w.nextId);
    }
  }

  /** What a run over freshly loaded resources starts from. */
  ghost function Loaded(plan: Plan, gateway: Gateway, ledger: Ledger): World
    reads gateway, ledger
  {
    World(gateway.site, gateway.basis, gateway.nextId, gateway.writes, ledger.bindings, plan.resources)
  }

  /** Two runs in a row: the first settles the site, the second issues no write at all. */
  method RunTwice(plan: Plan, gateway: Gateway, ledger: Ledger)
    returns (first: Option<Failure>, second: Option<Failure>, ghost between: World)
    requires gateway.steady == ledger.steady && gateway.codec == plan.codec && |ledger.bindings| == |plan.resources|
    requires KeysDistinct(plan.groups)
    modifies gateway, ledger
    ensures gateway.steady && old(Ready(plan, Loaded(plan, gateway, ledger))) ==>
              && first.None? && second.None?
              && Settled(plan, between)
              && gateway.site == between.site && gateway.writes == between.writes
  {
    ghost var calm := gateway.steady && Ready(plan, Loaded(plan, gateway, ledger));
    var run := new SiteRun(plan, gateway, ledger);
    ghost var start := run.State();
    var baseline, final;
    first, baseline, final := RunSite(run);
    between := run.State();
    var again := Reloaded(plan, ledger.bindings);
    if calm { SettledReady(plan, start, between); }
    var rerun := new SiteRun(again, gateway, ledger);
    second, baseline, final := RunSite(rerun);
  }
}
