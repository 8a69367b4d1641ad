/** The staged synchronization of one site: shutdowns, prices, channels, visibility, verification. */
module SiteSync {
  import opened Wrappers
  import opened Sequences
  import opened ChannelCodec
  import opened SiteState
  import opened SiteGateway
  import opened SiteSafety
  import opened SiteEffects
  import opened SiteWorld

  // ---------- the steady effect of each stage on one resource ----------

  /** The channel with the tag, if any, is switched off, and that is confirmed. */
  ghost predicate SwitchedOff(plan: Plan, i: nat, a: World, b: World)
    requires i < |plan.resources| == |a.bindings| == |a.resources|
  {
    && OnlyResource(plan, i, a, b)
    && |ChannelOf(b, TagOf(plan, i))| == |ChannelOf(a, TagOf(plan, i))|
    && IdOf(ChannelOf(b, TagOf(plan, i))) == IdOf(ChannelOf(a, TagOf(plan, i)))
    && OffIn(TagOf(plan, i), b.site)
    && b.resources[i] == a.resources[i].(binding := a.resources[i].binding.(external := IdOf(ChannelOf(a, TagOf(plan, i)))))
    && b.bindings[i] == Confirmed(a.bindings[i], IdOf(ChannelOf(a, TagOf(plan, i))), plan.version, plan.resources[i].desired, false)
    && (OffIn(TagOf(plan, i), a.site) ==> b.site == a.site && b.writes == a.writes)
  }

  /** The channel is the only one with its tag, and identifiers are unique. */
  ghost predicate Sole(c: Channel, w: World) { Fit(w.site.channels, w.nextId) && ChannelOf(w, c.tag) == [c] }

  class SiteRun {
    const plan: Plan
    const gateway: Gateway
    const ledger: Ledger
    var resources: seq<Resource>

    ghost predicate Valid()
      reads this, ledger
    {
      gateway.steady == ledger.steady && gateway.codec == plan.codec && Shaped(plan, ledger.bindings, resources)
    }

    ghost function State(): World
      reads this, gateway, ledger
    {
      World(gateway.site, gateway.basis, gateway.nextId, gateway.writes, ledger.bindings, resources)
    }

    constructor (plan: Plan, gateway: Gateway, ledger: Ledger)
      requires gateway.steady == ledger.steady && gateway.codec == plan.codec && |ledger.bindings| == |plan.resources|
      ensures this.plan == plan && this.gateway == gateway && this.ledger == ledger
      ensures resources == plan.resources && Valid()
    {
      this.plan, this.gateway, this.ledger, this.resources := plan, gateway, ledger, plan.resources;
    }

    /** The resources as they were loaded. */
    method Reload()
      requires Valid()
      modifies this`resources
      ensures Valid() && resources == plan.resources
    {
      resources := plan.resources;
    }

    ghost method Record(e: Event)
      requires Safe(plan, gateway.log) && Allowed(plan, gateway.log, e)
      modifies gateway`log
      ensures gateway.log == old(gateway.log) + [e] && Safe(plan, gateway.log)
    {
      SafeSnoc(plan, gateway.log, e);
      gateway.Note(e);
    }

    method Look() returns (r: Option<Site>)
      requires Safe(plan, gateway.log)
      modifies gateway`site, gateway`basis, gateway`nextId, gateway`log
      ensures old(gateway.log) <= gateway.log && Safe(plan, gateway.log)
      ensures r.Some? ==> Looked(r.value) in gateway.log
      ensures gateway.steady ==> r == Some(gateway.site) && State() == old(State())
    {
      r := gateway.Look();
      if r.Some? { SafeSnoc(plan, old(gateway.log), Looked(r.value)); }
    }

    // ---------- safety shutdown ----------

    method SwitchOff(i: nat, c: Channel, actual: Site) returns (ok: bool)
      requires i < |plan.resources| && !plan.resources[i].desired.enabled
      requires Safe(plan, gateway.log) && Mine(plan, gateway.log, i, c.id, actual)
      modifies gateway
      ensures old(gateway.log) <= gateway.log && Safe(plan, gateway.log)
      ensures gateway.steady && old(Sole(c, State())) ==>
                ok && ShutDownDone(c, old(State()), State())
    {
      ghost var calm := gateway.steady && Sole(c, State());
      if c.status == ManuallyDisabled {
        if calm { TouchesNothing(c.tag, gateway.site.channels, gateway.nextId); }
        return true;
      }
      SafeSnoc(plan, gateway.log, ShutDown(i, c.id, actual));
      if calm { StatusTouches(c, ManuallyDisabled, gateway.site.channels, gateway.nextId); }
      ok := gateway.SetEnabled(i, c.id, false, actual, None);
    }

    method VerifyOff(i: nat, c: Channel) returns (failure: Option<Failure>)
      requires i < |plan.resources| && !plan.resources[i].desired.enabled && c.tag == TagOf(plan, i)
      requires Safe(plan, gateway.log)
      modifies gateway`site, gateway`basis, gateway`nextId, gateway`log
      ensures old(gateway.log) <= gateway.log && Safe(plan, gateway.log)
      ensures failure.None? ==> WasOff(gateway.log, i)
      ensures gateway.steady ==> State() == old(State())
      ensures gateway.steady && old(Sole(c.(status := ManuallyDisabled), State())) ==> failure.None?
    {
      var state := Look();
      if state.None? { return Some(GatewayFailed); }
      var seen := state.value;
      var verified := LocateManagedChannel(TagOf(plan, i), Some(c.id), seen.channels);
      LocateOwned(TagOf(plan, i), Some(c.id), seen.channels);
      if gateway.steady && Sole(c.(status := ManuallyDisabled), State()) {
        OwnerBound(c.(status := ManuallyDisabled), seen.channels, gateway.nextId);
      }
      if verified.Failure? { return Some(verified.error); }
      if verified.value.None? || verified.value.value.status != ManuallyDisabled { return Some(DisableUnconfirmed); }
      Record(Off(i, seen));
      assert IsOff(gateway.log[|gateway.log| - 1], i);
      failure := None;
    }

    /** Switches the channel of a disabled resource off and rereads it. */
    method ShutDownChannel(i: nat, c: Channel, actual: Site) returns (failure: Option<Failure>)
      requires i < |plan.resources| && !plan.resources[i].desired.enabled && c.tag == TagOf(plan, i)
      requires Safe(plan, gateway.log) && Mine(plan, gateway.log, i, c.id, actual)
      modifies gateway
      ensures old(gateway.log) <= gateway.log && Safe(plan, gateway.log)
      ensures failure.None? ==> WasOff(gateway.log, i)
      ensures gateway.steady && old(Sole(c, State())) ==>
                failure.None? && ShutDownDone(c, old(State()), State())
    {
      var ok := SwitchOff(i, c, actual);
      if !ok { return Some(GatewayFailed); }
      failure := VerifyOff(i, c);
    }

    method ConfirmOff(i: nat, external: Option<nat>) returns (failure: Option<Failure>)
      requires Valid() && i < |plan.resources|
      modifies this`resources, ledger`bindings
      ensures Valid()
      ensures gateway.steady ==> failure.None? && OffConfirmed(plan, i, external, old(State()), State())
    {
      resources := resources[i := resources[i].(binding := resources[i].binding.(external := external))];
      var ok := ledger.Confirm(i, external, plan.version, plan.resources[i].desired, false);
      if !ok { return Some(StoreFailed); }
      var recorded := ledger.Reachable();
      failure := if recorded then None else Some(StoreFailed);
    }

    /** Shuts one disabled resource down and confirms it; `actual` is the state read at the start. */
    method DisableResource(i: nat, actual: Site) returns (failure: Option<Failure>)
      requires Valid() && i < |plan.resources| && !plan.resources[i].desired.enabled
      requires Safe(plan, gateway.log) && Looked(actual) in gateway.log
      modifies this`resources, gateway, ledger`bindings
      ensures Valid() && old(gateway.log) <= gateway.log && Safe(plan, gateway.log)
      ensures failure.None? ==> WasOff(gateway.log, i)
      ensures gateway.steady && old(DisableReady(plan, i, State(), actual)) ==>
                failure.None? && SwitchedOff(plan, i, old(State()), State())
    {
      ghost var w := State();
      ghost var calm := gateway.steady && DisableReady(plan, i, w, actual);
      var tag := TagOf(plan, i);
      var found := LocateManagedChannel(tag, resources[i].binding.external, actual.channels);
      LocateOwned(tag, resources[i].binding.external, actual.channels);
      if found.Failure? { return Some(found.error); }
      var external := None;
      if found.value.Some? {
        TaggedHasTag(tag, actual.channels);
        external := Some(found.value.value.id);
        failure := ShutDownChannel(i, found.value.value, actual);
        if failure.Some? { return; }
      } else {
        Record(Off(i, actual));
        assert IsOff(gateway.log[|gateway.log| - 1], i);
      }
      ghost var middle := State();
      failure := ConfirmOff(i, external);
      if calm { OffComposes(plan, i, found.value, w, middle, State()); }
    }

    // ---------- applying one resource ----------

    method Decrypt(i: nat) returns (ok: bool)
      requires i < |resources|
      ensures gateway.steady && resources[i].available ==> ok
    {
      ok := resources[i].available;
      if !gateway.steady { ok := *; }
    }

    method CreateChannel(i: nat) returns (ok: bool)
      requires i < |plan.resources| && gateway.codec == plan.codec && Safe(plan, gateway.log) && Cleared(plan, gateway.log)
      modifies gateway
      ensures old(gateway.log) <= gateway.log && Safe(plan, gateway.log)
      ensures |old(gateway.log)| < |gateway.log| && WritesChannel(gateway.log[|old(gateway.log)|], i)
      ensures ok ==> plan.codec.stored(plan.resources[i].desired).Some?
      ensures gateway.steady && old(WriteReady(plan, i, None, State())) ==> ok && WriteDone(plan, i, None, old(State()), State())
    {
      ghost var w := State();
      SafeSnoc(plan, gateway.log, Created(i));
      ok := gateway.Create(i, plan.resources[i].desired);
      if gateway.steady && WriteReady(plan, i, None, w) { WriteEffect(plan, i, None, w, State()); }
    }

    method UpdateChannel(i: nat, c: Channel, seen: Site) returns (ok: bool)
      requires i < |plan.resources| && gateway.codec == plan.codec && Safe(plan, gateway.log) && Cleared(plan, gateway.log)
      requires Mine(plan, gateway.log, i, c.id, seen)
      modifies gateway
      ensures old(gateway.log) <= gateway.log && Safe(plan, gateway.log)
      ensures |old(gateway.log)| < |gateway.log| && WritesChannel(gateway.log[|old(gateway.log)|], i)
      ensures ok ==> plan.codec.stored(plan.resources[i].desired).Some?
      ensures gateway.steady && old(WriteReady(plan, i, Some(c), State())) ==> ok && WriteDone(plan, i, Some(c), old(State()), State())
    {
      ghost var w := State();
      SafeSnoc(plan, gateway.log, Updated(i, c.id, seen));
      ok := gateway.Update(i, c.id, plan.resources[i].desired, seen);
      if gateway.steady && WriteReady(plan, i, Some(c), w) { WriteEffect(plan, i, Some(c), w, State()); }
    }

    /** Creates the channel, or writes its configuration. */
    method WriteChannel(i: nat, first: Option<Channel>, seen: Site) returns (ok: bool)
      requires i < |plan.resources| && gateway.codec == plan.codec && Safe(plan, gateway.log) && Cleared(plan, gateway.log)
      requires first.Some? ==> Mine(plan, gateway.log, i, first.value.id, seen)
      modifies gateway
      ensures old(gateway.log) <= gateway.log && Safe(plan, gateway.log)
      ensures |old(gateway.log)| < |gateway.log| && WritesChannel(gateway.log[|old(gateway.log)|], i)
      ensures ok ==> plan.codec.stored(plan.resources[i].desired).Some?
      ensures gateway.steady && old(WriteReady(plan, i, first, State())) ==>
                ok && WriteDone(plan, i, first, old(State()), State())
    {
      if first.None? {
        ok := CreateChannel(i);
      } else {
        ok := UpdateChannel(i, first.value, seen);
      }
    }

    /** Reads the state again and finds the channel of the resource in it. */
    method Reread(i: nat, bound: Option<nat>, missing: Failure) returns (r: Result<(Channel, Site), Failure>)
      requires i < |plan.resources| && Safe(plan, gateway.log)
      modifies gateway`site, gateway`basis, gateway`nextId, gateway`log
      ensures old(gateway.log) <= gateway.log && Safe(plan, gateway.log)
      ensures r.Success? ==>
                && Tagged(TagOf(plan, i), r.value.1.channels) == [r.value.0] && r.value.0.tag == TagOf(plan, i)
                && Mine(plan, gateway.log, i, r.value.0.id, r.value.1)
      ensures gateway.steady ==> State() == old(State())
      ensures gateway.steady && old(Found(TagOf(plan, i), bound, State())) ==>
                r == Success((ChannelOf(old(State()), TagOf(plan, i))[0], old(gateway.site)))
    {
      var state := Look();
      if state.None? { return Failure(GatewayFailed); }
      var found := LocateManagedChannel(TagOf(plan, i), bound, state.value.channels);
      LocateOwned(TagOf(plan, i), bound, state.value.channels);
      TaggedHasTag(TagOf(plan, i), state.value.channels);
      if found.Failure? { return Failure(found.error); }
      if found.value.None? { return Failure(missing); }
      r := Success((found.value.value, state.value));
    }

    /** Remembers which channel the resource is bound to. */
    method BindResource(i: nat, id: nat) returns (ok: bool)
      requires Valid() && i < |plan.resources|
      modifies this`resources, ledger`bindings
      ensures Valid()
      ensures ok ==> Bound(i, id, old(State()), State())
      ensures gateway.steady ==> ok
    {
      if resources[i].binding.external == Some(id) { return true; }
      ok := ledger.Bind(i, id);
      if ok { resources := resources[i := resources[i].(binding := resources[i].binding.(external := Some(id)))]; }
    }

    /** Writes a channel that was never confirmed once more. */
    method Refresh(i: nat, c: Channel, seen: Site) returns (failure: Option<Failure>)
      requires i < |resources| == |plan.resources| && gateway.codec == plan.codec && Safe(plan, gateway.log) && Cleared(plan, gateway.log)
      requires Mine(plan, gateway.log, i, c.id, seen)
      modifies gateway
      ensures old(gateway.log) <= gateway.log && Safe(plan, gateway.log)
      ensures failure.None? ==> |old(gateway.log)| < |gateway.log| && WritesChannel(gateway.log[|old(gateway.log)|], i)
      ensures gateway.steady && old(WriteReady(plan, i, Some(c), State()) && resources[i].available) ==>
                failure.None? && WriteDone(plan, i, Some(c), old(State()), State())
    {
      var ready := Decrypt(i);
      if !ready { return Some(CredentialUnavailable); }
      var ok := WriteChannel(i, Some(c), seen);
      failure := if ok then None else Some(GatewayFailed);
    }

    /** Sends one test through the channel. */
    method Probe(i: nat, id: nat) returns (passed: bool)
      requires i < |plan.resources| && Safe(plan, gateway.log) && Cleared(plan, gateway.log)
      modifies gateway
      ensures gateway.log == old(gateway.log) + [Tested(i, id, passed)] && Safe(plan, gateway.log)
      ensures Cleared(plan, gateway.log)
      ensures gateway.steady ==> passed && State() == old(State()).(writes := gateway.writes)
    {
      passed := gateway.Test(i, id);
      SafeSnoc(plan, old(gateway.log), Tested(i, id, passed));
      ClearedGrows(plan, old(gateway.log), gateway.log);
    }

    /** Sends one test, and writes the channel again where it was never confirmed and is not in service. */
    method TestNow(i: nat, c: Channel, seen: Site) returns (failure: Option<Failure>)
      requires i < |resources| == |plan.resources| && gateway.codec == plan.codec && Safe(plan, gateway.log) && Cleared(plan, gateway.log)
      requires c.tag == TagOf(plan, i) && Mine(plan, gateway.log, i, c.id, seen)
      modifies gateway
      ensures old(gateway.log) <= gateway.log && Safe(plan, gateway.log)
      ensures failure.None? ==> |old(gateway.log)| < |gateway.log| && gateway.log[|old(gateway.log)|] == Tested(i, c.id, true)
      ensures failure.None? && resources[i].binding.planVersion == None && c.status != Enabled ==>
                |gateway.log| > |old(gateway.log)| + 1 && WritesChannel(gateway.log[|old(gateway.log)| + 1], i)
      ensures resources[i].binding.planVersion != None || c.status == Enabled ==> |gateway.log| <= |old(gateway.log)| + 1
      ensures gateway.steady && old(TestReady(plan, i, c, State())) ==>
                failure.None? && TestedDone(plan, i, c, old(State()), State())
    {
      ghost var w := State();
      if gateway.steady && TestReady(plan, i, c, w) { TouchesNothing(c.tag, w.site.channels, w.nextId); }
      var ready := Decrypt(i);
      if !ready { return Some(CredentialUnavailable); }
      var passed := Probe(i, c.id);
      if !passed { return Some(GatewayFailed); }
      if !NeedsRefresh(resources[i], c) { return None; }
      MineGrows(plan, old(gateway.log), gateway.log, i, c.id, seen);
      failure := Refresh(i, c, seen);
    }

    /** Tests a channel that was written or is not in service, and writes it again the first time. */
    method TestChannel(i: nat, c: Channel, seen: Site, written: bool) returns (failure: Option<Failure>)
      requires i < |resources| == |plan.resources| && gateway.codec == plan.codec && Safe(plan, gateway.log) && Cleared(plan, gateway.log)
      requires c.tag == TagOf(plan, i) && Mine(plan, gateway.log, i, c.id, seen)
      modifies gateway
      ensures old(gateway.log) <= gateway.log && Safe(plan, gateway.log)
      ensures failure.None? && (written || c.status != Enabled || resources[i].binding.planVersion == None) ==>
                Tested(i, c.id, true) in gateway.log
      ensures !written && c.status == Enabled && resources[i].binding.planVersion != None ==>
                failure.None? && gateway.log == old(gateway.log)
      ensures failure.None? && resources[i].binding.planVersion == None && c.status != Enabled ==>
                |gateway.log| > |old(gateway.log)| + 1 && WritesChannel(gateway.log[|old(gateway.log)| + 1], i)
      ensures resources[i].binding.planVersion != None || c.status == Enabled ==> |gateway.log| <= |old(gateway.log)| + 1
      ensures gateway.steady && old(TestReady(plan, i, c, State())) ==>
                failure.None? && TestDone(plan, i, c, written, old(State()), State())
    {
      ghost var w := State();
      if !NeedsTest(resources[i], written, c) {
        if gateway.steady && TestReady(plan, i, c, w) { TouchesNothing(c.tag, w.site.channels, w.nextId); }
        return None;
      }
      failure := TestNow(i, c, seen);
    }

    method SwitchOn(i: nat, c: Channel, seen: Site, first: Option<Channel>) returns (ok: bool)
      requires i < |plan.resources| && plan.resources[i].desired.enabled
      requires Safe(plan, gateway.log) && Cleared(plan, gateway.log)
      requires c.tag == TagOf(plan, i) && Mine(plan, gateway.log, i, c.id, seen)
      requires Tagged(TagOf(plan, i), seen.channels) == [c] && c.status != Enabled
      requires Tested(i, c.id, true) in gateway.log
      requires LookedAt(gateway.log, i, first) && !Locked(plan.resources[i], plan.resume, first)
      requires UpToDate(plan, gateway.log, i, first, seen)
      modifies gateway
      ensures old(gateway.log) <= gateway.log && Safe(plan, gateway.log)
      ensures gateway.steady && old(Fit(gateway.site.channels, gateway.nextId)) ==>
                forall now: Channel :: ChannelOf(old(State()), TagOf(plan, i)) == [now] && now.id == c.id ==>
                  ok && StatusDone(now, Enabled, old(State()), State())
    {
      SwitchAllowed(plan, gateway.log, i, c, seen, first, gateway.site);
      ghost var w := State();
      ghost var calm := gateway.steady && Fit(w.site.channels, w.nextId);
      ok := gateway.SetEnabled(i, c.id, true, seen, first);
      if calm { SwitchEffect(plan, i, c.id, w, State()); }
    }

    /** Looks at the resource's channel and decides whether this run may touch it. */
    method Examine(i: nat) returns (r: Result<(Option<Channel>, Site), Failure>, ghost seen: Option<Site>)
      requires Valid() && i < |plan.resources| && Safe(plan, gateway.log) && Cleared(plan, gateway.log)
      modifies gateway`site, gateway`basis, gateway`nextId, gateway`log
      ensures old(gateway.log) <= gateway.log && Safe(plan, gateway.log)
      ensures seen.Some? ==> Looked(seen.value) in gateway.log
      ensures seen.None? ==> r == Failure(GatewayFailed)
      ensures seen.Some? ==>
                && (r == Failure(CredentialUnavailable) <==> resources[i].desired.enabled && !resources[i].available)
                && (r == Failure(ManualLock) <==> MayExamine(resources[i], seen.value) && ByHand(resources[i], plan.resume, seen.value))
                && (r.Success? <==> MayExamine(resources[i], seen.value) && !ByHand(resources[i], plan.resume, seen.value))
      ensures r.Success? ==>
                && seen == Some(r.value.1) && r.value.0 == Only(Tagged(TagOf(plan, i), r.value.1.channels))
                && (r.value.0.Some? ==> r.value.0.value.tag == TagOf(plan, i) && Mine(plan, gateway.log, i, r.value.0.value.id, r.value.1))
                && LookedAt(gateway.log, i, r.value.0) && !Locked(plan.resources[i], plan.resume, r.value.0)
      ensures gateway.steady ==> State() == old(State()) && seen == Some(old(gateway.site))
      ensures gateway.steady && old(ApplyReady(plan, i, State())) ==>
                r == Success((Only(ChannelOf(old(State()), TagOf(plan, i))), old(gateway.site)))
    {
      var state := Look();
      seen := state;
      if state.None? { return Failure(GatewayFailed), seen; }
      var d := plan.resources[i].desired;
      if d.enabled && !resources[i].available { return Failure(CredentialUnavailable), seen; }
      var found := LocateManagedChannel(d.tag, resources[i].binding.external, state.value.channels);
      LocateOwned(d.tag, resources[i].binding.external, state.value.channels);
      if found.Failure? { return Failure(found.error), seen; }
      TaggedHasTag(d.tag, state.value.channels);
      ClearedGrows(plan, old(gateway.log), gateway.log);
      Record(Turn(i, found.value, state.value));
      assert IsTurn(gateway.log[|gateway.log| - 1], i, found.value);
      LockedExactly(resources[i], plan.resume, Tagged(d.tag, state.value.channels));
      if Locked(resources[i], plan.resume, found.value) { return Failure(ManualLock), seen; }
      r := Success((found.value, state.value));
    }

    /** Writes the channel where it is missing, differs, or its credential changed. */
    method EnsureWritten(i: nat, first: Option<Channel>, seen: Site) returns (r: Result<(Channel, Site), Failure>)
      requires Valid() && i < |plan.resources| && Safe(plan, gateway.log) && Cleared(plan, gateway.log)
      requires first == Only(Tagged(TagOf(plan, i), seen.channels))
      requires first.Some? ==> first.value.tag == TagOf(plan, i) && Mine(plan, gateway.log, i, first.value.id, seen)
      requires LookedAt(gateway.log, i, first) && !Locked(plan.resources[i], plan.resume, first)
      modifies gateway
      ensures old(gateway.log) <= gateway.log && Safe(plan, gateway.log)
      ensures r.Success? ==> r.value.0.tag == TagOf(plan, i) && Mine(plan, gateway.log, i, r.value.0.id, r.value.1)
      ensures r.Success? ==>
                UpToDate(plan, gateway.log, i, first, r.value.1) && Tagged(TagOf(plan, i), r.value.1.channels) == [r.value.0]
      ensures gateway.steady && old(ApplyReady(plan, i, State())) && first == Only(ChannelOf(old(State()), TagOf(plan, i))) ==>
                && r.Success? && Current(plan, i, r.value.0, State()) && RemoteOnly(TagOf(plan, i), old(State()), State())
                && (first.Some? ==> r.value.0.status == first.value.status && r.value.0.id == first.value.id)
                && (!NeedsWrite(plan.codec, resources[i], first) ==> State() == old(State()) && Some(r.value.0) == first)
    {
      ghost var w := State();
      ghost var calm := gateway.steady && ApplyReady(plan, i, w) && first == Only(ChannelOf(w, TagOf(plan, i)));
      if !NeedsWrite(plan.codec, resources[i], first) {
        if calm { TouchesNothing(TagOf(plan, i), w.site.channels, w.nextId); }
        return Success((first.value, seen));
      }
      var ready := Decrypt(i);
      if !resources[i].available || !ready { return Failure(CredentialUnavailable); }
      var ok := WriteChannel(i, first, seen);
      if !ok { return Failure(GatewayFailed); }
      if calm { WrittenCurrent(plan, i, first, w, State()); }
      r := Reread(i, resources[i].binding.external, CreateUnconfirmed);
      WrittenAfter(old(gateway.log), gateway.log, i, first);
    }

    method PutInService(i: nat, c: Channel, seen: Site, first: Option<Channel>) returns (failure: Option<Failure>)
      requires i < |plan.resources| && plan.resources[i].desired.enabled
      requires Safe(plan, gateway.log) && Cleared(plan, gateway.log)
      requires c.tag == TagOf(plan, i) && Mine(plan, gateway.log, i, c.id, seen)
      requires Tagged(TagOf(plan, i), seen.channels) == [c] && c.status != Enabled
      requires Tested(i, c.id, true) in gateway.log
      requires LookedAt(gateway.log, i, first) && !Locked(plan.resources[i], plan.resume, first)
      requires UpToDate(plan, gateway.log, i, first, seen)
      modifies gateway
      ensures old(gateway.log) <= gateway.log && Safe(plan, gateway.log)
      ensures gateway.steady && old(Serviceable(plan, i, c, State())) ==>
                failure.None? && Active(plan, i, c, State()) && RemoteOnly(TagOf(plan, i), old(State()), State())
    {
      ghost var w := State();
      var ok := SwitchOn(i, c, seen, first);
      if gateway.steady && Serviceable(plan, i, c, w) { SwitchedCurrent(plan, i, c, w, State()); }
      failure := if ok then None else Some(GatewayFailed);
    }

    /** Tests the channel and puts it in service where the plan wants it there. */
    method Activate(i: nat, c: Channel, seen: Site, first: Option<Channel>, written: bool) returns (failure: Option<Failure>)
      requires Valid() && i < |plan.resources| && Safe(plan, gateway.log) && Cleared(plan, gateway.log)
      requires c.tag == TagOf(plan, i) && Mine(plan, gateway.log, i, c.id, seen)
      requires Tagged(TagOf(plan, i), seen.channels) == [c]
      requires LookedAt(gateway.log, i, first) && !Locked(plan.resources[i], plan.resume, first)
      requires UpToDate(plan, gateway.log, i, first, seen)
      modifies gateway
      ensures old(gateway.log) <= gateway.log && Safe(plan, gateway.log)
      ensures gateway.steady && old(Current(plan, i, c, State()) && RoundTrips(plan.codec, plan.resources[i].desired) && resources[i].available) ==>
                && failure.None? && RemoteOnly(TagOf(plan, i), old(State()), State())
                && Active(plan, i, c, State())
                && (!NeedsTest(resources[i], written, c) ==> State() == old(State()))
    {
      ghost var w := State();
      ghost var calm := gateway.steady && Current(plan, i, c, w) && RoundTrips(plan.codec, plan.resources[i].desired) && resources[i].available;
      failure := TestChannel(i, c, seen, written);
      if failure.Some? { return; }
      if calm { TestedCurrent(plan, i, c, written, w, State()); }
      if !NeedsSwitchOn(resources[i], c) { return; }
      ClearedGrows(plan, old(gateway.log), gateway.log);
      MineGrows(plan, old(gateway.log), gateway.log, i, c.id, seen);
      LookedAtGrows(old(gateway.log), gateway.log, i, first);
      UpToDateGrows(plan, old(gateway.log), gateway.log, i, first, seen);
      ghost var m := State();
      failure := PutInService(i, c, seen, first);
      if calm { ServiceComposes(plan, i, c, w, m, State()); }
    }

    /** Stores the confirmation, and records the step. */
    method StoreConfirmation(i: nat, id: nat, written: bool) returns (failure: Option<Failure>)
      requires Valid() && i < |plan.resources| && Safe(plan, gateway.log)
      requires plan.resources[i].desired.enabled ==> WasOn(gateway.log, i)
      modifies gateway`log, ledger`bindings
      ensures Valid() && old(gateway.log) <= gateway.log && Safe(plan, gateway.log)
      ensures failure.None? && plan.resources[i].desired.enabled ==> InService(gateway.log, i)
      ensures failure.None? ==>
                ledger.bindings ==
                old(ledger.bindings)[i := Confirmed(old(ledger.bindings)[i], Some(id), plan.version, plan.resources[i].desired, written)]
      ensures gateway.steady ==> failure.None?
    {
      var ok := ledger.Confirm(i, Some(id), plan.version, plan.resources[i].desired, written);
      if !ok { return Some(StoreFailed); }
      ghost var logged := gateway.log;
      Record(Stored(i));
      assert IsStored(gateway.log[|logged|], i);
      if plan.resources[i].desired.enabled { WasOnGrows(logged, gateway.log, i); }
      var recorded := ledger.Reachable();
      failure := if recorded then None else Some(StoreFailed);
    }

    /** Rereads the channel, compares it with the plan, and confirms it. */
    method ConfirmApplied(i: nat, written: bool) returns (failure: Option<Failure>)
      requires Valid() && i < |plan.resources| && Safe(plan, gateway.log)
      modifies gateway`site, gateway`basis, gateway`nextId, gateway`log, ledger`bindings
      ensures Valid() && old(gateway.log) <= gateway.log && Safe(plan, gateway.log)
      ensures failure.None? && plan.resources[i].desired.enabled ==> InService(gateway.log, i)
      ensures failure.None? ==>
                ledger.bindings[i].planVersion == Some(plan.version) && ledger.bindings[i].enabled == Some(plan.resources[i].desired.enabled)
      ensures gateway.steady && old(Verifiable(plan, i, State())) ==>
                failure.None? && AppliedConfirmed(plan, i, written, old(State()), State())
    {
      var d := plan.resources[i].desired;
      var read := Reread(i, resources[i].binding.external, ChannelDrift);
      if read.Failure? { return Some(read.error); }
      var c, seen := read.value.0, read.value.1;
      var expected := if d.enabled then Enabled else ManuallyDisabled;
      if c.status != expected || !plan.codec.matches(d, c.tag, c.config) { return Some(ChannelDrift); }
      if d.enabled {
        Record(On(i, seen));
        assert IsOn(gateway.log[|gateway.log| - 1], i);
      }
      failure := StoreConfirmation(i, c.id, written);
    }

    /** Looks at the channel, writes it where needed, and binds the resource to it. */
    method Prepare(i: nat) returns (r: Result<(Channel, Site), Failure>, first: Option<Channel>)
      requires Valid() && i < |plan.resources| && Safe(plan, gateway.log) && Cleared(plan, gateway.log)
      modifies this`resources, gateway, ledger`bindings
      ensures Valid() && old(gateway.log) <= gateway.log && Safe(plan, gateway.log)
      ensures r.Success? ==>
                && r.value.0.tag == TagOf(plan, i) && Mine(plan, gateway.log, i, r.value.0.id, r.value.1)
                && LookedAt(gateway.log, i, first) && !Locked(plan.resources[i], plan.resume, first)
                && UpToDate(plan, gateway.log, i, first, r.value.1)
                && Tagged(TagOf(plan, i), r.value.1.channels) == [r.value.0]
                && Similar(resources[i], old(resources)[i])
      ensures gateway.steady && old(ApplyReady(plan, i, State())) ==>
                r.Success? && Prepared(plan, i, first, r.value.0, old(State()), State())
      ensures gateway.steady && old(LockedOut(resources[i], plan.resume, gateway.site)) ==>
                r == Failure(ManualLock) && State() == old(State())
    {
      ghost var w := State();
      ghost var calm := gateway.steady && ApplyReady(plan, i, w);
      ghost var seen;
      var examined;
      examined, seen := Examine(i);
      if examined.Failure? { return Failure(examined.error), None; }
      first := examined.value.0;
      ClearedGrows(plan, old(gateway.log), gateway.log);
      ghost var log1 := gateway.log;
      r := EnsureWritten(i, first, examined.value.1);
      if r.Failure? { return; }
      ghost var w1 := State();
      var bound := BindResource(i, r.value.0.id);
      if calm { PreparedComposes(plan, i, first, r.value.0, w, w1, State()); }
      LookedAtGrows(log1, gateway.log, i, first);
      if !bound { return Failure(StoreFailed), first; }
    }

    /** Tests the prepared channel, puts it in service, rereads and confirms it; `w` is where the turn started. */
    method Complete(i: nat, c: Channel, seen: Site, first: Option<Channel>, written: bool, ghost w: World) returns (failure: Option<Failure>)
      requires Valid() && i < |plan.resources| && Safe(plan, gateway.log) && Cleared(plan, gateway.log)
      requires c.tag == TagOf(plan, i) && Mine(plan, gateway.log, i, c.id, seen)
      requires Tagged(TagOf(plan, i), seen.channels) == [c]
      requires LookedAt(gateway.log, i, first) && !Locked(plan.resources[i], plan.resume, first)
      requires UpToDate(plan, gateway.log, i, first, seen)
      requires |w.bindings| == |w.resources| == |plan.resources|
      requires written == NeedsWrite(plan.codec, resources[i], first)
      modifies this`resources, gateway, ledger`bindings
      ensures Valid() && old(gateway.log) <= gateway.log && Safe(plan, gateway.log)
      ensures failure.None? && plan.resources[i].desired.enabled ==> InService(gateway.log, i)
      ensures gateway.steady && ApplyReady(plan, i, w) && old(Prepared(plan, i, first, c, w, State())) ==>
                failure.None? && Applied(plan, i, w, State())
    {
      ghost var w2 := State();
      ghost var calm := gateway.steady && ApplyReady(plan, i, w) && Prepared(plan, i, first, c, w, w2);
      if calm { PreparedCurrent(plan, i, first, c, w, w2); }
      failure := Activate(i, c, seen, first, written);
      if failure.Some? { return; }
      ghost var w3 := State();
      if calm { ActivatedVerifiable(plan, i, first, c, w, w2, w3); }
      failure := ConfirmApplied(i, written);
      if calm { AppliedComposes(plan, i, first, c, w, w2, w3, State()); }
    }

    /** Brings one resource to the plan: look, write, bind, test, switch on, verify, confirm. */
    method ApplyResource(i: nat) returns (failure: Option<Failure>)
      requires Valid() && i < |plan.resources| && Safe(plan, gateway.log) && Cleared(plan, gateway.log)
      modifies this`resources, gateway, ledger`bindings
      ensures Valid() && old(gateway.log) <= gateway.log && Safe(plan, gateway.log)
      ensures failure.None? && plan.resources[i].desired.enabled ==> InService(gateway.log, i)
      ensures gateway.steady && old(ApplyReady(plan, i, State())) ==>
                failure.None? && Applied(plan, i, old(State()), State())
      ensures gateway.steady && old(LockedOut(resources[i], plan.resume, gateway.site)) ==>
                failure == Some(ManualLock) && State() == old(State())
    {
      ghost var w := State();
      var prepared, first := Prepare(i);
      if prepared.Failure? { return Some(prepared.error); }
      var c := prepared.value.0;
      var written := NeedsWrite(plan.codec, resources[i], first);
      ClearedGrows(plan, old(gateway.log), gateway.log);
      failure := Complete(i, c, prepared.value.1, first, written, w);
    }
  }

  /** Confirming writes the binding of one resource, in memory and in the store. */
  ghost predicate OffConfirmed(plan: Plan, i: nat, external: Option<nat>, a: World, b: World)
    requires i < |plan.resources| == |a.bindings| == |a.resources|
  {
    && b == a.(bindings := b.bindings, resources := b.resources)
    && b.resources == a.resources[i := a.resources[i].(binding := a.resources[i].binding.(external := external))]
    && b.bindings == a.bindings[i := Confirmed(a.bindings[i], external, plan.version, plan.resources[i].desired, false)]
  }

  lemma OffComposes(plan: Plan, i: nat, c: Option<Channel>, a: World, m: World, b: World)
    requires i < |plan.resources| == |a.bindings| == |a.resources|
    requires Fit(a.site.channels, a.nextId) && |ChannelOf(a, TagOf(plan, i))| <= 1
    requires c == Only(ChannelOf(a, TagOf(plan, i)))
    requires if c.Some? then c.value.tag == TagOf(plan, i) && ShutDownDone(c.value, a, m) else m == a
    requires OffConfirmed(plan, i, if c.Some? then Some(c.value.id) else None, m, b)
    ensures SwitchedOff(plan, i, a, b)
  {
    TouchesNothing(TagOf(plan, i), a.site.channels, a.nextId);
  }

  /** What writing a channel needs: its place is free, or it is the only one with its tag. */
  ghost predicate WriteReady(plan: Plan, i: nat, first: Option<Channel>, w: World)
    requires i < |plan.resources|
  {
    && RoundTrips(plan.codec, plan.resources[i].desired) && Fit(w.site.channels, w.nextId)
    && match first
       case None => ChannelOf(w, TagOf(plan, i)) == []
       case Some(c) => c.tag == TagOf(plan, i) && ChannelOf(w, c.tag) == [c]
  }

  /** The channel as the remote site has it after a write: a new one starts off. */
  function Rewritten(codec: Codec, d: Desired, first: Option<Channel>, nextId: nat): Channel
    requires codec.stored(d).Some?
  {
    match first
    case None => Channel(nextId, d.tag, codec.stored(d).value, ManuallyDisabled)
    case Some(c) => c.(config := codec.stored(d).value)
  }

  /** The run changed the remote channels about one tag only, and nothing else it knows of. */
  ghost predicate RemoteOnly(tag: string, a: World, b: World) {
    && b == a.(site := a.site.(channels := b.site.channels), nextId := b.nextId, writes := b.writes)
    && Touches(tag, a.site.channels, a.nextId, b.site.channels, b.nextId)
  }

  ghost predicate WriteDone(plan: Plan, i: nat, first: Option<Channel>, a: World, b: World)
    requires i < |plan.resources|
  {
    && plan.codec.stored(plan.resources[i].desired).Some?
    && RemoteOnly(TagOf(plan, i), a, b)
    && ChannelOf(b, TagOf(plan, i)) == [Rewritten(plan.codec, plan.resources[i].desired, first, a.nextId)]
  }

  lemma WriteEffect(plan: Plan, i: nat, first: Option<Channel>, a: World, b: World)
    requires i < |plan.resources| && WriteReady(plan, i, first, a)
    requires plan.codec.stored(plan.resources[i].desired).Some? ==>
               var d := plan.resources[i].desired;
               match first
               case None =>
                 b == a.(site := a.site.(channels := a.site.channels + [Rewritten(plan.codec, d, None, a.nextId)]),
                         nextId := a.nextId + 1, writes := b.writes)
               case Some(c) =>
                 b == a.(site := a.site.(channels := Map(SetConfig(c.id, d.tag, plan.codec.stored(d).value), a.site.channels)),
                         writes := b.writes)
    ensures WriteDone(plan, i, first, a, b)
  {
    var d := plan.resources[i].desired;
    match first
    case None => CreateTouches(Rewritten(plan.codec, d, None, a.nextId), a.site.channels);
    case Some(c) => ConfigTouches(c, plan.codec.stored(d).value, a.site.channels, a.nextId);
  }

  /** The one channel with the tag is found under this binding. */
  ghost predicate Found(tag: string, bound: Option<nat>, w: World) {
    Clear(tag, bound, w.site.channels, w.nextId) && |ChannelOf(w, tag)| == 1
  }

  ghost predicate Bound(i: nat, id: nat, a: World, b: World) {
    && i < |a.resources| == |a.bindings|
    && b.resources == a.resources[i := a.resources[i].(binding := a.resources[i].binding.(external := Some(id)))]
    && (a.resources[i].binding.external == Some(id) ==> b == a)
    && b == a.(resources := b.resources, bindings := b.bindings)
    && |b.bindings| == |a.bindings| && b.bindings[i].credential == a.bindings[i].credential
    && forall k :: 0 <= k < |a.bindings| && k != i ==> b.bindings[k] == a.bindings[k]
  }

  ghost predicate TestReady(plan: Plan, i: nat, c: Channel, w: World)
    requires i < |plan.resources| == |w.resources|
  {
    Sole(c, w) && RoundTrips(plan.codec, plan.resources[i].desired) && w.resources[i].available
  }

  /** A test changes nothing, but where it writes the channel again. */
  ghost predicate TestedDone(plan: Plan, i: nat, c: Channel, a: World, b: World)
    requires i < |plan.resources| == |a.resources|
  {
    && RemoteOnly(c.tag, a, b) && plan.codec.stored(plan.resources[i].desired).Some?
    && ChannelOf(b, c.tag) ==
       [if NeedsRefresh(a.resources[i], c) then Rewritten(plan.codec, plan.resources[i].desired, Some(c), a.nextId) else c]
  }

  ghost predicate TestDone(plan: Plan, i: nat, c: Channel, written: bool, a: World, b: World)
    requires i < |plan.resources| == |a.resources|
  {
    TestedDone(plan, i, c, a, b) && (!NeedsTest(a.resources[i], written, c) ==> b == a)
  }

  ghost predicate StatusDone(c: Channel, status: Status, a: World, b: World) {
    RemoteOnly(c.tag, a, b) && ChannelOf(b, c.tag) == [c.(status := status)]
  }

  /** The credential is at hand where the plan enables the channel, and its ownership is clear. */
  ghost predicate MayExamine(r: Resource, seen: Site) {
    (r.desired.enabled ==> r.available) && Owned(r.desired.tag, r.binding.external, seen.channels)
  }

  /**
   The state shows the channel switched off by hand although the plan wants it enabled and it
   was confirmed before, last as enabled or in an unknown state; and nothing resumes it.
   */
  ghost predicate ByHand(r: Resource, resume: set<nat>, seen: Site) {
    && |Tagged(r.desired.tag, seen.channels)| == 1
    && Tagged(r.desired.tag, seen.channels)[0].status == ManuallyDisabled
    && r.desired.enabled && r.binding.planVersion != None && r.binding.enabled != Some(false)
    && r.relation !in resume
  }

  ghost predicate LockedOut(r: Resource, resume: set<nat>, seen: Site) { MayExamine(r, seen) && ByHand(r, resume, seen) }

  /** What applying a resource needs: its channel is unambiguous and unlocked, and its credential at hand. */
  ghost predicate ApplyReady(plan: Plan, i: nat, w: World)
    requires i < |plan.resources| == |w.bindings| == |w.resources|
  {
    var r := w.resources[i];
    && Similar(r, plan.resources[i]) && RoundTrips(plan.codec, r.desired) && r.available
    && Fit(w.site.channels, w.nextId)
    && Clear(r.desired.tag, r.binding.external, w.site.channels, w.nextId)
    && w.bindings[i].credential == r.binding.credential
    && Free(r, plan.resume, ChannelOf(w, r.desired.tag))
    && (!r.desired.enabled ==> Only(ChannelOf(w, r.desired.tag)).Some? &&
                               Only(ChannelOf(w, r.desired.tag)).value.status == ManuallyDisabled)
  }

  /** The only channel with the tag is `c`, and it equals the plan. */
  ghost predicate Current(plan: Plan, i: nat, c: Channel, w: World)
    requires i < |plan.resources|
  {
    c.tag == TagOf(plan, i) && Sole(c, w) && plan.codec.matches(plan.resources[i].desired, c.tag, c.config)
  }

  lemma WrittenCurrent(plan: Plan, i: nat, first: Option<Channel>, a: World, b: World)
    requires i < |plan.resources| == |a.bindings| == |a.resources|
    requires ApplyReady(plan, i, a) && first == Only(ChannelOf(a, TagOf(plan, i)))
    requires WriteDone(plan, i, first, a, b)
    ensures |ChannelOf(b, TagOf(plan, i))| == 1 && Current(plan, i, ChannelOf(b, TagOf(plan, i))[0], b)
    ensures Found(TagOf(plan, i), a.resources[i].binding.external, b)
    ensures first.Some? ==> ChannelOf(b, TagOf(plan, i))[0].status == first.value.status &&
                            ChannelOf(b, TagOf(plan, i))[0].id == first.value.id
  {
    TaggedHasTag(TagOf(plan, i), a.site.channels);
    var c := Rewritten(plan.codec, plan.resources[i].desired, first, a.nextId);
    assert c == Channel(c.id, TagOf(plan, i), plan.codec.stored(plan.resources[i].desired).value, c.status);
  }

  /** In service as planned: enabled where wanted, otherwise as it was. */
  ghost predicate Active(plan: Plan, i: nat, c: Channel, w: World)
    requires i < |plan.resources|
  {
    && |ChannelOf(w, TagOf(plan, i))| == 1
    && var now := ChannelOf(w, TagOf(plan, i))[0];
       && now.id == c.id && Current(plan, i, now, w)
       && now.status == if plan.resources[i].desired.enabled then Enabled else c.status
  }

  lemma TestedCurrent(plan: Plan, i: nat, c: Channel, written: bool, a: World, b: World)
    requires i < |plan.resources| == |a.resources| && Similar(a.resources[i], plan.resources[i])
    requires Current(plan, i, c, a) && RoundTrips(plan.codec, plan.resources[i].desired)
    requires TestDone(plan, i, c, written, a, b)
    ensures |ChannelOf(b, TagOf(plan, i))| == 1
    ensures var now := ChannelOf(b, TagOf(plan, i))[0];
            Current(plan, i, now, b) && now.id == c.id && now.status == c.status
    ensures !NeedsSwitchOn(a.resources[i], c) ==> Active(plan, i, c, b)
  {
    var d := plan.resources[i].desired;
    var now := ChannelOf(b, TagOf(plan, i))[0];
    if NeedsRefresh(a.resources[i], c) {
      assert now == Channel(c.id, d.tag, plan.codec.stored(d).value, c.status);
    }
  }

  /** The channel to switch on is the planned one. */
  ghost predicate Serviceable(plan: Plan, i: nat, c: Channel, w: World)
    requires i < |plan.resources|
  {
    && |ChannelOf(w, TagOf(plan, i))| == 1
    && ChannelOf(w, TagOf(plan, i))[0].id == c.id && Current(plan, i, ChannelOf(w, TagOf(plan, i))[0], w)
  }

  /** Switching the channel of the resource on changes its status and nothing else. */
  lemma SwitchEffect(plan: Plan, i: nat, id: nat, a: World, b: World)
    requires i < |plan.resources| && Fit(a.site.channels, a.nextId)
    requires b == a.(site := a.site.(channels := Map(SetStatus(id, Enabled), a.site.channels)), writes := b.writes)
    ensures forall now: Channel :: ChannelOf(a, TagOf(plan, i)) == [now] && now.id == id ==> StatusDone(now, Enabled, a, b)
  {
    if |ChannelOf(a, TagOf(plan, i))| == 1 && ChannelOf(a, TagOf(plan, i))[0].id == id {
      var now := ChannelOf(a, TagOf(plan, i))[0];
      TaggedHasTag(TagOf(plan, i), a.site.channels);
      assert ChannelOf(a, TagOf(plan, i)) == [now];
      StatusTouches(now, Enabled, a.site.channels, a.nextId);
    }
  }

  lemma SwitchedCurrent(plan: Plan, i: nat, c: Channel, a: World, b: World)
    requires i < |plan.resources| && plan.resources[i].desired.enabled && Serviceable(plan, i, c, a)
    requires StatusDone(ChannelOf(a, TagOf(plan, i))[0], Enabled, a, b)
    ensures Active(plan, i, c, b) && RemoteOnly(TagOf(plan, i), a, b)
  {
  }

  lemma ServiceComposes(plan: Plan, i: nat, c: Channel, a: World, m: World, b: World)
    requires i < |plan.resources| && RemoteOnly(TagOf(plan, i), a, m) && RemoteOnly(TagOf(plan, i), m, b)
    ensures RemoteOnly(TagOf(plan, i), a, b)
  {
    TouchesTransitive(
      TagOf(plan, i), a.site.channels, a.nextId, m.site.channels, m.nextId, b.site.channels, b.nextId);
  }

  /** The reread will find the bound channel in the planned state. */
  ghost predicate Verifiable(plan: Plan, i: nat, w: World)
    requires i < |plan.resources| == |w.resources|
  {
    && Found(TagOf(plan, i), w.resources[i].binding.external, w)
    && var c := ChannelOf(w, TagOf(plan, i))[0];
       && c.status == (if plan.resources[i].desired.enabled then Enabled else ManuallyDisabled)
       && plan.codec.matches(plan.resources[i].desired, c.tag, c.config)
  }

  ghost predicate AppliedConfirmed(plan: Plan, i: nat, written: bool, a: World, b: World)
    requires i < |plan.resources| == |a.bindings|
  {
    && b == a.(bindings := b.bindings)
    && |ChannelOf(a, TagOf(plan, i))| == 1
    && b.bindings == a.bindings[i := Confirmed(
         a.bindings[i], Some(ChannelOf(a, TagOf(plan, i))[0].id), plan.version, plan.resources[i].desired, written)]
  }

  /** The resource is as planned and confirmed with its credential; nothing was written if it already was. */
  ghost predicate Applied(plan: Plan, i: nat, a: World, b: World)
    requires i < |plan.resources| == |a.bindings| == |a.resources|
  {
    var d := plan.resources[i].desired;
    && OnlyResource(plan, i, a, b)
    && |ChannelOf(b, d.tag)| == 1
    && var c := ChannelOf(b, d.tag)[0];
       && c.status == (if d.enabled then Enabled else ManuallyDisabled) && plan.codec.matches(d, c.tag, c.config)
       && b.resources[i] == a.resources[i].(binding := a.resources[i].binding.(external := Some(c.id)))
       && b.bindings[i] == Binding(Some(c.id), Some(plan.version), Some(d.enabled), d.credential)
       && (AlreadyApplied(plan, i, a) ==> b.site == a.site && b.writes == a.writes)
  }

  ghost predicate AlreadyApplied(plan: Plan, i: nat, a: World)
    requires i < |plan.resources| == |a.resources|
  {
    var r := a.resources[i];
    OnIn(plan.codec, r.desired, a.site) && !CredentialChanged(r) && r.binding.planVersion.Some?
  }

  /** The channel is there, equal to the plan, and the resource is bound to it. */
  ghost predicate Prepared(plan: Plan, i: nat, first: Option<Channel>, c: Channel, a: World, b: World)
    requires i < |plan.resources| == |a.bindings| == |a.resources|
  {
    && first == Only(ChannelOf(a, TagOf(plan, i)))
    && Current(plan, i, c, b)
    && (first.Some? ==> c.status == first.value.status)
    && OnlyResource(plan, i, a, b)
    && b.resources[i] == a.resources[i].(binding := a.resources[i].binding.(external := Some(c.id)))
    && b.bindings[i].credential == a.bindings[i].credential
    && (!NeedsWrite(plan.codec, a.resources[i], first) ==>
          b.site == a.site && b.writes == a.writes && Some(c) == first)
  }

  lemma PreparedComposes(plan: Plan, i: nat, first: Option<Channel>, c: Channel, a: World, m: World, b: World)
    requires i < |plan.resources| == |a.bindings| == |a.resources|
    requires first == Only(ChannelOf(a, TagOf(plan, i)))
    requires Current(plan, i, c, m) && RemoteOnly(TagOf(plan, i), a, m)
    requires first.Some? ==> c.status == first.value.status
    requires !NeedsWrite(plan.codec, a.resources[i], first) ==> m == a && Some(c) == first
    requires Bound(i, c.id, m, b)
    ensures Prepared(plan, i, first, c, a, b)
  {
  }

  lemma PreparedCurrent(plan: Plan, i: nat, first: Option<Channel>, c: Channel, a: World, b: World)
    requires i < |plan.resources| == |a.bindings| == |a.resources| && ApplyReady(plan, i, a)
    requires Prepared(plan, i, first, c, a, b)
    ensures Current(plan, i, c, b) && RoundTrips(plan.codec, plan.resources[i].desired) && b.resources[i].available
  {
  }

  lemma ActivatedVerifiable(plan: Plan, i: nat, first: Option<Channel>, c: Channel, a: World, m: World, b: World)
    requires i < |plan.resources| == |a.bindings| == |a.resources| && ApplyReady(plan, i, a)
    requires Prepared(plan, i, first, c, a, m)
    requires Active(plan, i, c, b) && RemoteOnly(TagOf(plan, i), m, b)
    ensures Verifiable(plan, i, b)
  {
    OwnerBound(ChannelOf(b, TagOf(plan, i))[0], b.site.channels, b.nextId);
  }

  lemma AppliedComposes(
    plan: Plan, i: nat, first: Option<Channel>, c: Channel, a: World, m: World, n: World, b: World)
    requires i < |plan.resources| == |a.bindings| == |a.resources| && ApplyReady(plan, i, a)
    requires Prepared(plan, i, first, c, a, m)
    requires Active(plan, i, c, n) && RemoteOnly(TagOf(plan, i), m, n) && Verifiable(plan, i, n)
    requires var written := NeedsWrite(plan.codec, m.resources[i], first);
             && AppliedConfirmed(plan, i, written, n, b)
             && (!NeedsTest(m.resources[i], written, c) ==> n == m)
    ensures Applied(plan, i, a, b)
  {
    TouchesTransitive(
      TagOf(plan, i), a.site.channels, a.nextId, m.site.channels, m.nextId, n.site.channels, n.nextId);
    assert NeedsWrite(plan.codec, m.resources[i], first) == NeedsWrite(plan.codec, a.resources[i], first);
  }

  lemma TaggedHasTag(tag: string, channels: seq<Channel>)
    ensures forall k :: 0 <= k < |Tagged(tag, channels)| ==> Tagged(tag, channels)[k].tag == tag
  {
    FilterMembers(HasTag(tag), channels);
    forall k | 0 <= k < |Tagged(tag, channels)| ensures Tagged(tag, channels)[k].tag == tag {
      assert Tagged(tag, channels)[k] in Tagged(tag, channels);
    }
  }

  /** The shutdown changed the status of the channel and nothing else. */
  ghost predicate ShutDownDone(c: Channel, a: World, b: World) {
    && b.basis == a.basis && b.nextId == a.nextId && b.bindings == a.bindings && b.resources == a.resources
    && b.site.ratios == a.site.ratios && b.site.visible == a.site.visible
    && Touches(c.tag, a.site.channels, a.nextId, b.site.channels, b.nextId)
    && ChannelOf(b, c.tag) == [c.(status := ManuallyDisabled)]
    && (c.status == ManuallyDisabled ==> b.site == a.site && b.writes == a.writes)
  }

  /** The state read at the start still shows the channel of the resource. */
  ghost predicate DisableReady(plan: Plan, i: nat, w: World, actual: Site)
    requires i < |plan.resources| == |w.resources|
  {
    && Fit(w.site.channels, w.nextId)
    && Owned(TagOf(plan, i), w.resources[i].binding.external, actual.channels)
    && Tagged(TagOf(plan, i), actual.channels) == ChannelOf(w, TagOf(plan, i))
  }
}
