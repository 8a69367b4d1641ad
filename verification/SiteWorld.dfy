/** The combined state of a whole-site run, and when it is ready for a plan or settled on it. */
module SiteWorld {
  import opened Wrappers
  import opened Sequences
  import opened ChannelCodec
  import opened SiteState
  import opened SiteGateway
  import opened SiteSafety
  import opened SiteEffects

  /** Remote site, stored confirmations, and the resources as the run holds them. */
  datatype World = World(
    site: Site, basis: string, nextId: nat, writes: nat, bindings: seq<Binding>, resources: seq<Resource>)

  function ChannelOf(w: World, tag: string): seq<Channel> { Tagged(tag, w.site.channels) }

  function IdOf(matching: seq<Channel>): Option<nat> { if matching == [] then None else Some(matching[0].id) }

  ghost predicate TagsDistinct(plan: Plan) {
    forall i, j :: 0 <= i < j < |plan.resources| ==> TagOf(plan, i) != TagOf(plan, j)
  }

  /** The in-memory resource differs from the loaded one at most in the channel it is bound to. */
  predicate Similar(r: Resource, loaded: Resource) {
    r == loaded.(binding := loaded.binding.(external := r.binding.external))
  }

  ghost predicate Shaped(plan: Plan, bindings: seq<Binding>, resources: seq<Resource>) {
    && |resources| == |plan.resources| == |bindings|
    && forall i :: 0 <= i < |resources| ==> Similar(resources[i], plan.resources[i])
  }

  /** Only the part of one resource moved. */
  ghost predicate OnlyResource(plan: Plan, i: nat, a: World, b: World) {
    && i < |plan.resources| && |a.bindings| == |b.bindings| && |a.resources| == |b.resources|
    && b.site.ratios == a.site.ratios && b.site.visible == a.site.visible && b.basis == a.basis
    && Touches(TagOf(plan, i), a.site.channels, a.nextId, b.site.channels, b.nextId)
    && (forall k :: 0 <= k < |a.bindings| && k != i ==> b.bindings[k] == a.bindings[k])
    && forall k :: 0 <= k < |a.resources| && k != i ==> b.resources[k] == a.resources[k]
  }

  lemma OtherChannel(plan: Plan, i: nat, a: World, b: World, k: nat)
    requires TagsDistinct(plan) && OnlyResource(plan, i, a, b) && k < |plan.resources| && k != i
    ensures ChannelOf(b, TagOf(plan, k)) == ChannelOf(a, TagOf(plan, k))
  {
    assert TagOf(plan, k) != TagOf(plan, i);
  }

  // ---------- ready ----------

  predicate FirstCredential(r: Resource) { r.binding.credential.1 == 0 && r.desired.credential.1 == 1 }

  /** Credentials are at hand wherever the run needs them. */
  predicate Supplied(r: Resource, matching: seq<Channel>) {
    (r.desired.enabled || (matching != [] && CredentialChanged(r) && !FirstCredential(r))) ==> r.available
  }

  /** One channel at most carries the tag, and the bound identifier belongs to it. */
  ghost predicate Clear(tag: string, bound: Option<nat>, channels: seq<Channel>, n: nat) {
    && |Tagged(tag, channels)| <= 1
    && (bound.Some? ==> bound.value < n && BoundTo(bound.value, tag, channels))
  }

  /**
   Nothing speaks against putting the channel in service: it is absent or not switched off by
   hand, or it is not wanted enabled, or it was never confirmed, or it was last confirmed
   disabled, or the plan resumes its relation.
   */
  predicate Free(r: Resource, resume: set<nat>, matching: seq<Channel>) {
    || (forall c <- matching :: c.status != ManuallyDisabled)
    || !r.desired.enabled
    || r.binding.planVersion.None?
    || r.binding.enabled == Some(false)
    || r.relation in resume
  }

  /** The decision about the lock is about exactly that. */
  lemma LockedExactly(r: Resource, resume: set<nat>, matching: seq<Channel>)
    requires |matching| <= 1
    ensures Locked(r, resume, Only(matching)) <==> !Free(r, resume, matching)
  {
    if matching != [] { assert matching == [matching[0]]; }
  }

  ghost predicate ResourceReady(plan: Plan, i: nat, w: World)
    requires i < |plan.resources| == |w.bindings| == |w.resources|
  {
    var r := w.resources[i];
    && Similar(r, plan.resources[i]) && RoundTrips(plan.codec, r.desired) && Supplied(r, ChannelOf(w, r.desired.tag))
    && Clear(r.desired.tag, r.binding.external, w.site.channels, w.nextId)
    && w.bindings[i].credential == r.binding.credential
    && Free(r, plan.resume, ChannelOf(w, r.desired.tag))
  }

  predicate NamesVisible(groups: seq<Group>) { forall i :: 0 <= i < |groups| ==> !groups[i].visible || groups[i].name != "" }

  ghost predicate SiteReady(plan: Plan, w: World) {
    && TagsDistinct(plan) && KeysDistinct(plan.groups) && AllPositive(plan.groups) && NamesVisible(plan.groups)
    && Fit(w.site.channels, w.nextId) && AllAcceptable(w.site.ratios) && w.basis == plan.basis
  }

  /**
   No ownership conflict, no manual lock, credentials available, pricing as reviewed, and
   plan and site well formed; the resources are as loaded from the store.
   */
  ghost predicate Ready(plan: Plan, w: World) {
    && |plan.resources| == |w.bindings| == |w.resources|
    && SiteReady(plan, w)
    && (forall i :: 0 <= i < |w.resources| ==> w.resources[i] == plan.resources[i] && w.bindings[i] == w.resources[i].binding)
    && forall i :: 0 <= i < |w.resources| ==> ResourceReady(plan, i, w)
  }

  lemma StaysReady(plan: Plan, i: nat, a: World, b: World, k: nat)
    requires TagsDistinct(plan) && OnlyResource(plan, i, a, b) && k != i
    requires k < |plan.resources| == |a.bindings| == |a.resources|
    requires ResourceReady(plan, k, a)
    ensures ResourceReady(plan, k, b)
  {
    OtherChannel(plan, i, a, b, k);
  }

  // ---------- settled ----------

  /** The resource is off and confirmed off. */
  ghost predicate OffSettled(plan: Plan, i: nat, w: World)
    requires i < |plan.resources| == |w.bindings| == |w.resources|
  {
    var b := w.bindings[i];
    && OffIn(TagOf(plan, i), w.site)
    && b.external == w.resources[i].binding.external == IdOf(ChannelOf(w, TagOf(plan, i)))
    && b.planVersion == Some(plan.version) && b.enabled == Some(false)
  }

  /** The resource is on, equal to the plan, and confirmed with its credential. */
  ghost predicate OnSettled(plan: Plan, i: nat, w: World)
    requires i < |plan.resources| == |w.bindings| == |w.resources|
  {
    var d := plan.resources[i].desired;
    && OnIn(plan.codec, d, w.site)
    && w.resources[i].binding.external == IdOf(ChannelOf(w, d.tag))
    && w.bindings[i] == Binding(IdOf(ChannelOf(w, d.tag)), Some(plan.version), Some(true), d.credential)
  }

  /** A rotated credential reached the channel of a disabled resource, where there is one. */
  predicate CredentialSettled(d: Desired, b: Binding) {
    b.external.None? || b.credential == d.credential || (b.credential.1 == 0 && d.credential.1 == 1)
  }

  ghost predicate ResourceSettled(plan: Plan, i: nat, w: World)
    requires i < |plan.resources| == |w.bindings| == |w.resources|
  {
    if plan.resources[i].desired.enabled then OnSettled(plan, i, w)
    else OffSettled(plan, i, w) && CredentialSettled(plan.resources[i].desired, w.bindings[i])
  }

  ghost predicate Settled(plan: Plan, w: World) {
    && |plan.resources| == |w.bindings| == |w.resources|
    && RatiosSet(w.site.ratios, plan.groups) && VisibilitySet(w.site.visible, plan.groups)
    && forall i :: 0 <= i < |plan.resources| ==> ResourceSettled(plan, i, w)
  }

  lemma StaysSettled(plan: Plan, i: nat, a: World, b: World, k: nat)
    requires TagsDistinct(plan) && OnlyResource(plan, i, a, b) && k != i
    requires k < |plan.resources| == |a.bindings| == |a.resources|
    ensures OffSettled(plan, k, a) ==> OffSettled(plan, k, b)
    ensures OnSettled(plan, k, a) ==> OnSettled(plan, k, b)
    ensures ResourceSettled(plan, k, a) ==> ResourceSettled(plan, k, b)
  {
    OtherChannel(plan, i, a, b, k);
  }

  /** The plan as loaded again after the confirmations were stored. */
  function Reloaded(plan: Plan, bindings: seq<Binding>): Plan
    requires |bindings| == |plan.resources|
  {
    plan.(resources := seq(|bindings|, i requires 0 <= i < |bindings| => plan.resources[i].(binding := bindings[i])))
  }
}
