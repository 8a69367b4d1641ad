/** Which writes a whole-site run may issue, given what it did and saw before; and its decisions. */
module SiteSafety {
  import opened Wrappers
  import opened Sequences
  import opened ChannelCodec
  import opened SiteState
  import opened SiteGateway

  // ---------- decisions about one resource ----------

  predicate CredentialChanged(r: Resource) { r.binding.credential != r.desired.credential }

  /** An operator switched the channel off after it was confirmed enabled, and nothing resumes it. */
  predicate Locked(r: Resource, resume: set<nat>, first: Option<Channel>) {
    && r.desired.enabled && first.Some? && first.value.status == ManuallyDisabled
    && r.binding.planVersion.Some? && (r.binding.enabled.None? || r.binding.enabled.value)
    && r.relation !in resume
  }

  predicate NeedsWrite(codec: Codec, r: Resource, first: Option<Channel>) {
    first.None? || !codec.matches(r.desired, first.value.tag, first.value.config) || CredentialChanged(r)
  }

  predicate NeedsTest(r: Resource, written: bool, second: Channel) {
    written || second.status != Enabled || r.binding.planVersion.None?
  }

  /** A channel that was never confirmed is written once more so that the remote site reloads it. */
  predicate NeedsRefresh(r: Resource, second: Channel) { r.binding.planVersion.None? && second.status != Enabled }

  predicate NeedsSwitchOn(r: Resource, second: Channel) { r.desired.enabled && second.status != Enabled }

  /** A disabled resource whose channel exists still gets a rotated credential. */
  predicate Rotates(r: Resource) {
    r.binding.external.Some? && CredentialChanged(r) && !(r.binding.credential.1 == 0 && r.desired.credential.1 == 1)
  }

  // ---------- which events may follow which ----------

  predicate IsOff(e: Event, i: nat) { e.Off? && e.i == i }

  predicate IsOn(e: Event, i: nat) { e.On? && e.i == i }

  ghost predicate WasOff(log: seq<Event>, i: nat) { exists k :: 0 <= k < |log| && IsOff(log[k], i) }

  ghost predicate WasOn(log: seq<Event>, i: nat) { exists k :: 0 <= k < |log| && IsOn(log[k], i) }

  ghost predicate AllOff(plan: Plan, log: seq<Event>) {
    forall i: nat :: i < |plan.resources| && !plan.resources[i].desired.enabled ==> WasOff(log, i)
  }

  predicate IsStored(e: Event, i: nat) { e.Stored? && e.i == i }

  /** A read showed the channel on and as planned, and that was confirmed in the store. */
  ghost predicate InService(log: seq<Event>, i: nat) {
    WasOn(log, i) && exists k :: 0 <= k < |log| && IsStored(log[k], i)
  }

  ghost predicate AllOn(plan: Plan, log: seq<Event>) {
    forall i: nat :: i < |plan.resources| && plan.resources[i].desired.enabled ==> InService(log, i)
  }

  predicate PassesBasis(e: Event) { e == BasisChecked(true) }

  ghost predicate BasisPassed(log: seq<Event>) { exists k :: 0 <= k < |log| && PassesBasis(log[k]) }

  predicate ReadsPrices(e: Event) { e.PricesRead? }

  /** All ratios were reread equal to the plan, and the pricing basis held again after that. */
  ghost predicate PricesSettled(log: seq<Event>) {
    exists j, k :: 0 <= j < k < |log| && ReadsPrices(log[j]) && PassesBasis(log[k])
  }

  /** What precedes everything that is done to an enabled channel: all shutdowns, then the prices. */
  ghost predicate Cleared(plan: Plan, log: seq<Event>) { AllOff(plan, log) && PricesSettled(log) }

  function TagOf(plan: Plan, i: nat): string
    requires i < |plan.resources|
  {
    plan.resources[i].desired.tag
  }

  /** The channel is the only one with the resource's tag in a state that was read. */
  ghost predicate Mine(plan: Plan, log: seq<Event>, i: nat, id: nat, seen: Site) {
    && i < |plan.resources| && Looked(seen) in log
    && |Tagged(TagOf(plan, i), seen.channels)| == 1 && Tagged(TagOf(plan, i), seen.channels)[0].id == id
  }

  predicate OffIn(tag: string, site: Site) {
    |Tagged(tag, site.channels)| <= 1 &&
    forall c <- Tagged(tag, site.channels) :: c.status == ManuallyDisabled
  }

  predicate OnIn(codec: Codec, d: Desired, site: Site) {
    |Tagged(d.tag, site.channels)| == 1 &&
    var c := Tagged(d.tag, site.channels)[0];
    c.status == Enabled && codec.matches(d, c.tag, c.config)
  }

  ghost predicate Allowed(plan: Plan, before: seq<Event>, e: Event) {
    match e
    case Looked(_) => true
    case BasisChecked(_) => AllOff(plan, before)
    case ShutDown(i, id, seen) => Mine(plan, before, i, id, seen) && !plan.resources[i].desired.enabled
    case SwitchedOn(i, id, seen, first, _) =>
      && Cleared(plan, before) && Mine(plan, before, i, id, seen) && Tested(i, id, true) in before
      && NeedsSwitchOn(plan.resources[i], Tagged(TagOf(plan, i), seen.channels)[0])
      && LookedAt(before, i, first) && !Locked(plan.resources[i], plan.resume, first)
      && UpToDate(plan, before, i, first, seen)
    case Created(i) => Cleared(plan, before) && i < |plan.resources|
    case Updated(i, id, seen) => Cleared(plan, before) && Mine(plan, before, i, id, seen)
    case Tested(i, id, _) => Cleared(plan, before) && i < |plan.resources|
    case RatiosWritten(ratios, seen) =>
      && AllOff(plan, before) && BasisPassed(before)
      && Looked(seen) in before && RatiosMerged(seen.ratios, plan.groups, ratios, true)
    case VisibilityWritten(visible, seen) =>
      && Cleared(plan, before) && AllOn(plan, before)
      && Looked(seen) in before && VisibilityMerged(seen.visible, plan.groups, visible, true)
    case Off(i, seen) => i < |plan.resources| && Looked(seen) in before && OffIn(TagOf(plan, i), seen)
    case Turn(i, first, seen) =>
      && Cleared(plan, before) && i < |plan.resources|
      && (plan.resources[i].desired.enabled ==> plan.resources[i].available)
      && Looked(seen) in before && first == Only(Tagged(TagOf(plan, i), seen.channels))
    case On(i, seen) => i < |plan.resources| && Looked(seen) in before && OnIn(plan.codec, plan.resources[i].desired, seen)
    case Stored(i) => i < |plan.resources| && (plan.resources[i].desired.enabled ==> WasOn(before, i))
    case PricesRead(seen) => Looked(seen) in before && RatiosHold(seen, plan.groups)
  }

  predicate IsTurn(e: Event, i: nat, first: Option<Channel>) { e.Turn? && e.i == i && e.first == first }

  /** The turn of the resource started from this view of its channel. */
  ghost predicate LookedAt(log: seq<Event>, i: nat, first: Option<Channel>) {
    exists k :: 0 <= k < |log| && IsTurn(log[k], i, first)
  }

  predicate WritesChannel(e: Event, i: nat) { (e.Created? || e.Updated?) && e.i == i }

  /** The channel of the resource was written after its turn had started from this view. */
  ghost predicate WrittenSince(log: seq<Event>, i: nat, first: Option<Channel>) {
    exists k, m :: 0 <= k < m < |log| && IsTurn(log[k], i, first) && WritesChannel(log[m], i)
  }

  /** A needed write was sent and could be; without one the last look is the first. */
  ghost predicate UpToDate(plan: Plan, log: seq<Event>, i: nat, first: Option<Channel>, seen: Site)
    requires i < |plan.resources|
  {
    if NeedsWrite(plan.codec, plan.resources[i], first) then
      plan.codec.stored(plan.resources[i].desired).Some? && WrittenSince(log, i, first)
    else
      first == Only(Tagged(TagOf(plan, i), seen.channels))
  }

  /** Every event was allowed when it happened; so the same holds wherever the run stops. */
  ghost predicate Safe(plan: Plan, log: seq<Event>) {
    log == [] || (Safe(plan, log[..|log| - 1]) && Allowed(plan, log[..|log| - 1], log[|log| - 1]))
  }

  lemma SafeSnoc(plan: Plan, log: seq<Event>, e: Event)
    requires Safe(plan, log) && Allowed(plan, log, e)
    ensures Safe(plan, log + [e])
  {
    assert (log + [e])[..|log|] == log;
  }

  /** What a request to put a channel in service needs. */
  lemma SwitchAllowed(plan: Plan, log: seq<Event>, i: nat, c: Channel, seen: Site, first: Option<Channel>, at: Site)
    requires Safe(plan, log) && Cleared(plan, log) && i < |plan.resources| && plan.resources[i].desired.enabled
    requires Mine(plan, log, i, c.id, seen) && Tagged(TagOf(plan, i), seen.channels) == [c] && c.status != Enabled
    requires Tested(i, c.id, true) in log
    requires LookedAt(log, i, first) && !Locked(plan.resources[i], plan.resume, first) && UpToDate(plan, log, i, first, seen)
    ensures Safe(plan, log + [SwitchedOn(i, c.id, seen, first, at)])
  {
    SafeSnoc(plan, log, SwitchedOn(i, c.id, seen, first, at));
  }

  /** Safety is about every prefix. */
  lemma {:induction false} SafePrefix(plan: Plan, log: seq<Event>, n: nat)
    requires Safe(plan, log) && n <= |log|
    ensures Safe(plan, log[..n])
    ensures n < |log| ==> Allowed(plan, log[..n], log[n])
    decreases |log|
  {
    if n == |log| {
      assert log[..n] == log;
    } else {
      var k := |log| - 1;
      if n < k {
        assert log[..k][..n] == log[..n];
        SafePrefix(plan, log[..k], n);
      }
    }
  }

  // ---------- what a longer log still shows ----------

  lemma StillIn(a: seq<Event>, b: seq<Event>, e: Event)
    requires a <= b && e in a
    ensures e in b
  {
  }

  lemma WasOffGrows(a: seq<Event>, b: seq<Event>, i: nat)
    requires a <= b && WasOff(a, i)
    ensures WasOff(b, i)
  {
    var k :| 0 <= k < |a| && IsOff(a[k], i);
    assert IsOff(b[k], i);
  }

  lemma WasOnGrows(a: seq<Event>, b: seq<Event>, i: nat)
    requires a <= b && WasOn(a, i)
    ensures WasOn(b, i)
  {
    var k :| 0 <= k < |a| && IsOn(a[k], i);
    assert IsOn(b[k], i);
  }

  lemma InServiceGrows(a: seq<Event>, b: seq<Event>, i: nat)
    requires a <= b && InService(a, i)
    ensures InService(b, i)
  {
    WasOnGrows(a, b, i);
    var k :| 0 <= k < |a| && IsStored(a[k], i);
    assert IsStored(b[k], i);
  }

  lemma AllOffGrows(plan: Plan, a: seq<Event>, b: seq<Event>)
    requires a <= b && AllOff(plan, a)
    ensures AllOff(plan, b)
  {
    forall i: nat | i < |plan.resources| && !plan.resources[i].desired.enabled ensures WasOff(b, i) {
      WasOffGrows(a, b, i);
    }
  }

  lemma BasisPassedGrows(a: seq<Event>, b: seq<Event>)
    requires a <= b && BasisPassed(a)
    ensures BasisPassed(b)
  {
    var k :| 0 <= k < |a| && PassesBasis(a[k]);
    assert PassesBasis(b[k]);
  }

  lemma ClearedGrows(plan: Plan, a: seq<Event>, b: seq<Event>)
    requires a <= b && Cleared(plan, a)
    ensures Cleared(plan, b)
  {
    AllOffGrows(plan, a, b);
    var j, k :| 0 <= j < k < |a| && ReadsPrices(a[j]) && PassesBasis(a[k]);
    assert ReadsPrices(b[j]) && PassesBasis(b[k]);
  }

  lemma LookedAtGrows(a: seq<Event>, b: seq<Event>, i: nat, first: Option<Channel>)
    requires a <= b && LookedAt(a, i, first)
    ensures LookedAt(b, i, first)
  {
    var k :| 0 <= k < |a| && IsTurn(a[k], i, first);
    assert IsTurn(b[k], i, first);
  }

  lemma WrittenAfter(a: seq<Event>, b: seq<Event>, i: nat, first: Option<Channel>)
    requires a <= b && LookedAt(a, i, first) && |a| < |b| && WritesChannel(b[|a|], i)
    ensures WrittenSince(b, i, first)
  {
    var k :| 0 <= k < |a| && IsTurn(a[k], i, first);
    assert IsTurn(b[k], i, first);
  }

  lemma UpToDateGrows(plan: Plan, a: seq<Event>, b: seq<Event>, i: nat, first: Option<Channel>, seen: Site)
    requires a <= b && i < |plan.resources| && UpToDate(plan, a, i, first, seen)
    ensures UpToDate(plan, b, i, first, seen)
  {
    if WrittenSince(a, i, first) {
      var k, m :| 0 <= k < m < |a| && IsTurn(a[k], i, first) && WritesChannel(a[m], i);
      assert IsTurn(b[k], i, first) && WritesChannel(b[m], i);
    }
  }

  lemma MineGrows(plan: Plan, a: seq<Event>, b: seq<Event>, i: nat, id: nat, seen: Site)
    requires a <= b && Mine(plan, a, i, id, seen)
    ensures Mine(plan, b, i, id, seen)
  {
  }
}
