/** How far a steady whole-site run has come after each of its stages. */
module SiteStages {
  import opened Wrappers
  import opened Sequences
  import opened ChannelCodec
  import opened SiteState
  import opened SiteGateway
  import opened SiteSafety
  import opened SiteEffects
  import opened SiteWorld
  import opened SiteSync

  ghost predicate Sized(plan: Plan, w: World) { |plan.resources| == |w.bindings| == |w.resources| }

  /** Nothing to switch off. */
  ghost predicate QuietOff(plan: Plan, w: World) {
    forall k: nat :: k < |plan.resources| && !plan.resources[k].desired.enabled ==> OffIn(TagOf(plan, k), w.site)
  }

  ghost predicate SameSite(a: World, b: World) { b.site == a.site && b.writes == a.writes }

  // ---------- shutting down ----------

  /** The first `n` resources are dealt with; the rest is as it was at the start. */
  ghost predicate ShutStage(plan: Plan, w0: World, w: World, n: nat) {
    && Sized(plan, w) && SiteReady(plan, w)
    && w.site.ratios == w0.site.ratios && w.site.visible == w0.site.visible
    && (forall k: nat :: k < |plan.resources| ==> ResourceReady(plan, k, w))
    && (forall k: nat :: k < n && k < |plan.resources| && !plan.resources[k].desired.enabled ==> OffSettled(plan, k, w))
    && (forall k: nat :: n <= k < |plan.resources| ==> Untaken(plan, k, w0, w))
    && (forall k: nat :: k < |plan.resources| && plan.resources[k].desired.enabled ==> w.resources[k] == plan.resources[k])
    && (QuietOff(plan, w0) ==> SameSite(w0, w))
  }

  ghost predicate Untaken(plan: Plan, k: nat, w0: World, w: World)
    requires k < |plan.resources| == |w.resources|
  {
    w.resources[k] == plan.resources[k] && ChannelOf(w, TagOf(plan, k)) == ChannelOf(w0, TagOf(plan, k))
  }

  lemma ShutStart(plan: Plan, w: World)
    requires Ready(plan, w)
    ensures ShutStage(plan, w, w, 0)
  {
  }

  lemma ReadyToDisable(plan: Plan, w0: World, w: World, n: nat)
    requires n < |plan.resources| && ShutStage(plan, w0, w, n)
    requires Ready(plan, w0)
    ensures DisableReady(plan, n, w, w0.site)
  {
    assert Untaken(plan, n, w0, w);
    assert ResourceReady(plan, n, w0);
    OwnedWhenFit(TagOf(plan, n), w.resources[n].binding.external, w0.site.channels);
  }

  lemma OffReady(plan: Plan, i: nat, a: World, b: World)
    requires i < |plan.resources| && Sized(plan, a) && SiteReady(plan, a) && ResourceReady(plan, i, a)
    requires SwitchedOff(plan, i, a, b) && !plan.resources[i].desired.enabled
    ensures Sized(plan, b) && SiteReady(plan, b) && ResourceReady(plan, i, b) && OffSettled(plan, i, b)
  {
    var matching := ChannelOf(b, TagOf(plan, i));
    TaggedHasTag(TagOf(plan, i), b.site.channels);
    if matching != [] {
      assert matching == [matching[0]];
      OwnerBound(matching[0], b.site.channels, b.nextId);
    }
  }

  lemma ShutOne(plan: Plan, w0: World, a: World, i: nat, b: World)
    requires i < |plan.resources| && ShutStage(plan, w0, a, i) && !plan.resources[i].desired.enabled
    requires SwitchedOff(plan, i, a, b)
    ensures ShutStage(plan, w0, b, i + 1)
  {
    OffReady(plan, i, a, b);
    forall k: nat | k < |plan.resources| ensures ResourceReady(plan, k, b) {
      if k != i { StaysReady(plan, i, a, b, k); }
    }
    forall k: nat | k < i + 1 && !plan.resources[k].desired.enabled ensures OffSettled(plan, k, b) {
      if k != i { StaysSettled(plan, i, a, b, k); }
    }
    forall k: nat | i + 1 <= k < |plan.resources| ensures Untaken(plan, k, w0, b) {
      assert Untaken(plan, k, w0, a);
      OtherChannel(plan, i, a, b, k);
    }
    if QuietOff(plan, w0) { assert Untaken(plan, i, w0, a); }
  }

  lemma ShutSkip(plan: Plan, w0: World, a: World, i: nat)
    requires i < |plan.resources| && ShutStage(plan, w0, a, i) && plan.resources[i].desired.enabled
    ensures ShutStage(plan, w0, a, i + 1)
  {
  }

  // ---------- applying ----------

  /** Nothing to write for any resource. */
  ghost predicate QuietOn(plan: Plan, w: World) {
    Sized(plan, w) &&
    forall k: nat :: k < |plan.resources| ==>
      if plan.resources[k].desired.enabled then AlreadyApplied(plan, k, w) else !Rotates(w.resources[k])
  }

  ghost predicate ApplyStage(plan: Plan, w0: World, w: World, n: nat) {
    && Sized(plan, w) && SiteReady(plan, w)
    && w.site.ratios == w0.site.ratios && w.site.visible == w0.site.visible
    && (forall k: nat :: n <= k < |plan.resources| ==> ResourceReady(plan, k, w) && Pending(plan, k, w0, w))
    && (forall k: nat :: k < |plan.resources| && !plan.resources[k].desired.enabled ==> OffSettled(plan, k, w))
    && (forall k: nat :: k < n && k < |plan.resources| ==> ResourceSettled(plan, k, w))
    && (QuietOn(plan, w0) ==> SameSite(w0, w))
  }

  ghost predicate Pending(plan: Plan, k: nat, w0: World, w: World)
    requires k < |plan.resources| == |w.resources|
  {
    && k < |w0.resources| && w.resources[k] == w0.resources[k]
    && ChannelOf(w, TagOf(plan, k)) == ChannelOf(w0, TagOf(plan, k))
  }

  predicate Skipped(r: Resource) { !r.desired.enabled && !Rotates(r) }

  lemma ReadyToApply(plan: Plan, w0: World, w: World, n: nat)
    requires n < |plan.resources| && ApplyStage(plan, w0, w, n) && !Skipped(w.resources[n])
    ensures ApplyReady(plan, n, w)
  {
    assert ResourceReady(plan, n, w);
    var r := w.resources[n];
    if !r.desired.enabled {
      assert OffSettled(plan, n, w);
      var matching := ChannelOf(w, r.desired.tag);
      assert matching != [] && matching[0] in matching;
    }
  }

  lemma AppliedSettled(plan: Plan, i: nat, a: World, b: World)
    requires i < |plan.resources| && Sized(plan, a) && Applied(plan, i, a, b)
    ensures Sized(plan, b) && ResourceSettled(plan, i, b)
    ensures !plan.resources[i].desired.enabled ==> OffSettled(plan, i, b)
  {
    var matching := ChannelOf(b, TagOf(plan, i));
    assert matching == [matching[0]];
  }

  lemma ApplyOne(plan: Plan, w0: World, a: World, i: nat, b: World)
    requires i < |plan.resources| && ApplyStage(plan, w0, a, i) && !Skipped(a.resources[i])
    requires Applied(plan, i, a, b)
    ensures ApplyStage(plan, w0, b, i + 1)
  {
    AppliedSettled(plan, i, a, b);
    forall k: nat | i + 1 <= k < |plan.resources| ensures ResourceReady(plan, k, b) && Pending(plan, k, w0, b) {
      StaysReady(plan, i, a, b, k);
      assert Pending(plan, k, w0, a);
      OtherChannel(plan, i, a, b, k);
    }
    forall k: nat | k < |plan.resources| && !plan.resources[k].desired.enabled ensures OffSettled(plan, k, b) {
      if k != i { StaysSettled(plan, i, a, b, k); }
    }
    forall k: nat | k < i + 1 ensures ResourceSettled(plan, k, b) {
      if k != i { StaysSettled(plan, i, a, b, k); }
    }
    if QuietOn(plan, w0) { QuietApply(plan, w0, a, i); }
  }

  lemma QuietApply(plan: Plan, w0: World, a: World, i: nat)
    requires i < |plan.resources| && ApplyStage(plan, w0, a, i) && !Skipped(a.resources[i]) && QuietOn(plan, w0)
    ensures AlreadyApplied(plan, i, a)
  {
    assert Pending(plan, i, w0, a);
    assert ResourceReady(plan, i, a);
  }

  lemma ApplySkip(plan: Plan, w0: World, a: World, i: nat)
    requires i < |plan.resources| && ApplyStage(plan, w0, a, i) && Skipped(a.resources[i])
    ensures ApplyStage(plan, w0, a, i + 1)
  {
    assert ResourceReady(plan, i, a) && OffSettled(plan, i, a);
  }
}
