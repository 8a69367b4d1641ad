/** When a run puts a channel in service that its operator has just switched off. */
module OperatorSwitch {
  import opened Wrappers
  import opened Sequences
  import opened ChannelCodec
  import opened SiteState
  import opened SiteGateway
  import opened SiteSafety
  import opened SiteWorld

  predicate OffById(id: nat, site: Site) {
    exists k :: 0 <= k < |site.channels| && site.channels[k].id == id && site.channels[k].status == ManuallyDisabled
  }

  predicate ShownOn(id: nat, c: Option<Channel>) { c.Some? && c.value.id == id && c.value.status != ManuallyDisabled }

  /**
   A look of the turn showed the channel not switched off, and the request to put it in
   service finds it switched off. The writes and tests of the turn leave the status alone,
   so somebody else switched it off in between.
   */
  predicate SwitchedOffBetween(plan: Plan, e: Event)
    requires e.SwitchedOn? && e.i < |plan.resources|
  {
    && OffById(e.id, e.at)
    && (ShownOn(e.id, e.first) || ShownOn(e.id, Only(Tagged(TagOf(plan, e.i), e.seen.channels))))
  }

  /** The log ends with a request that overrides the operator. */
  ghost predicate Overrides(plan: Plan, log: seq<Event>, i: nat, first: Option<Channel>) {
    && i < |plan.resources| && log != [] && Safe(plan, log)
    && var e := log[|log| - 1];
       e.SwitchedOn? && e.i == i && e.first == first && SwitchedOffBetween(plan, e)
  }

  /** A switched-off channel would be left alone in the first look. */
  predicate Lockable(plan: Plan, i: nat)
    requires i < |plan.resources|
  {
    var r := plan.resources[i];
    && r.desired.enabled && r.binding.planVersion.Some? && (r.binding.enabled.None? || r.binding.enabled.value)
    && r.relation !in plan.resume
  }

  /** The first look leads to putting the channel in service: after a write, or because it is out of service. */
  predicate LeadsToSwitch(plan: Plan, i: nat, first: Option<Channel>)
    requires i < |plan.resources|
  {
    var r := plan.resources[i];
    && r.desired.enabled && r.available && !Locked(r, plan.resume, first)
    && if NeedsWrite(plan.codec, r, first) then plan.codec.stored(r.desired).Some? else first.value.status != Enabled
  }

  lemma TurnAvailable(plan: Plan, log: seq<Event>, i: nat, first: Option<Channel>)
    requires Safe(plan, log) && LookedAt(log, i, first)
    ensures i < |plan.resources| && (plan.resources[i].desired.enabled ==> plan.resources[i].available)
  {
    var k :| 0 <= k < |log| && IsTurn(log[k], i, first);
    SafePrefix(plan, log, k);
  }

  /**
   In any run, wherever it stops: a channel is put in service only where its first look leads
   to that. In particular a channel first seen enabled is switched on only after a write.
   */
  lemma SwitchFollowsLook(plan: Plan, log: seq<Event>, n: nat)
    requires Safe(plan, log) && n < |log| && log[n].SwitchedOn?
    ensures log[n].i < |plan.resources| && LeadsToSwitch(plan, log[n].i, log[n].first)
    ensures NeedsWrite(plan.codec, plan.resources[log[n].i], log[n].first) ==> WrittenSince(log[..n], log[n].i, log[n].first)
  {
    SafePrefix(plan, log, n);
    TurnAvailable(plan, log[..n], log[n].i, log[n].first);
  }

  // ---------- the case is real ----------

  /** Reads the site and finds every disabled resource of the first `n` absent. */
  function Offs(plan: Plan, seen: Site, n: nat): seq<Event>
    requires n <= |plan.resources|
  {
    if n == 0 then [Looked(seen)]
    else Offs(plan, seen, n - 1) + if plan.resources[n - 1].desired.enabled then [] else [Off(n - 1, seen)]
  }

  lemma {:induction false} OffsSafe(plan: Plan, seen: Site, n: nat)
    requires n <= |plan.resources|
    requires forall k: nat :: k < n && !plan.resources[k].desired.enabled ==> Tagged(TagOf(plan, k), seen.channels) == []
    ensures Safe(plan, Offs(plan, seen, n)) && Looked(seen) in Offs(plan, seen, n)
    ensures forall k: nat :: k < n && !plan.resources[k].desired.enabled ==> WasOff(Offs(plan, seen, n), k)
  {
    if n == 0 {
      SafeSnoc(plan, [], Looked(seen));
    } else {
      var before := Offs(plan, seen, n - 1);
      OffsSafe(plan, seen, n - 1);
      var after := before + [Off(n - 1, seen)];
      if plan.resources[n - 1].desired.enabled {
        assert Offs(plan, seen, n) == before;
      } else {
        assert Offs(plan, seen, n) == after;
        SafeSnoc(plan, before, Off(n - 1, seen));
        assert IsOff(after[|before|], n - 1);
        forall k: nat | k < n && !plan.resources[k].desired.enabled ensures WasOff(after, k) {
          if k < n - 1 { WasOffGrows(before, after, k); }
        }
      }
    }
  }

  lemma OthersAbsent(plan: Plan, i: nat, channels: seq<Channel>)
    requires TagsDistinct(plan) && i < |plan.resources| && plan.resources[i].desired.enabled
    requires |channels| <= 1 && forall c <- channels :: c.tag == TagOf(plan, i)
    ensures Tagged(TagOf(plan, i), channels) == channels
    ensures forall k: nat :: k < |plan.resources| && !plan.resources[k].desired.enabled ==> Tagged(TagOf(plan, k), channels) == []
  {
    FilterAll(HasTag(TagOf(plan, i)), channels);
    forall k: nat | k < |plan.resources| && !plan.resources[k].desired.enabled ensures Tagged(TagOf(plan, k), channels) == [] {
      assert TagOf(plan, k) != TagOf(plan, i);
      FilterNone(HasTag(TagOf(plan, k)), channels);
    }
  }

  lemma Next(plan: Plan, log: seq<Event>, e: Event)
    requires Safe(plan, log) && Cleared(plan, log) && Allowed(plan, log, e)
    ensures Safe(plan, log + [e]) && Cleared(plan, log + [e])
  {
    SafeSnoc(plan, log, e);
    ClearedGrows(plan, log, log + [e]);
  }

  /** The pricing basis holds, all ratios are reread equal, and the basis holds again. */
  lemma PricesFollow(plan: Plan, log: seq<Event>, seen: Site) returns (longer: seq<Event>)
    requires Safe(plan, log) && AllOff(plan, log) && Looked(seen) in log && RatiosHold(seen, plan.groups)
    ensures Safe(plan, longer) && Cleared(plan, longer) && Looked(seen) in longer
  {
    var basis, read := BasisChecked(true), PricesRead(seen);
    var log1 := log + [basis];
    SafeSnoc(plan, log, basis);
    AllOffGrows(plan, log, log1);
    var log2 := log1 + [read];
    SafeSnoc(plan, log1, read);
    AllOffGrows(plan, log1, log2);
    longer := log2 + [basis];
    SafeSnoc(plan, log2, basis);
    AllOffGrows(plan, log2, longer);
    assert ReadsPrices(longer[|log1|]) && PassesBasis(longer[|log2|]);
    StillIn(log, longer, Looked(seen));
  }

  /** A run over a site without disabled channels reaches the turns of the enabled ones. */
  lemma TurnsReached(plan: Plan, seen: Site) returns (log: seq<Event>)
    requires RatiosHold(seen, plan.groups)
    requires forall k: nat :: k < |plan.resources| && !plan.resources[k].desired.enabled ==> Tagged(TagOf(plan, k), seen.channels) == []
    ensures Safe(plan, log) && Cleared(plan, log) && Looked(seen) in log
  {
    OffsSafe(plan, seen, |plan.resources|);
    log := PricesFollow(plan, Offs(plan, seen, |plan.resources|), seen);
  }

  /** The turn of the resource starts from this look. */
  lemma TurnStarts(plan: Plan, log: seq<Event>, i: nat, first: Option<Channel>, seen: Site) returns (longer: seq<Event>)
    requires i < |plan.resources| && Safe(plan, log) && Cleared(plan, log) && Looked(seen) in log
    requires plan.resources[i].available && first == Only(Tagged(TagOf(plan, i), seen.channels))
    ensures Safe(plan, longer) && Cleared(plan, longer) && LookedAt(longer, i, first) && Looked(seen) in longer
  {
    var turn := Turn(i, first, seen);
    longer := log + [turn];
    Next(plan, log, turn);
    assert IsTurn(longer[|log|], i, first);
  }

  /** The write the first look calls for is sent, and the state read again. */
  lemma WriteAndLook(plan: Plan, log: seq<Event>, i: nat, first: Option<Channel>, seen: Site, again: Site) returns (longer: seq<Event>)
    requires i < |plan.resources| && Safe(plan, log) && Cleared(plan, log) && LookedAt(log, i, first) && Looked(seen) in log
    requires first == Only(Tagged(TagOf(plan, i), seen.channels))
    ensures Safe(plan, longer) && Cleared(plan, longer) && LookedAt(longer, i, first) && Looked(again) in longer
    ensures WrittenSince(longer, i, first)
  {
    var write, look := if first.None? then Created(i) else Updated(i, first.value.id, seen), Looked(again);
    Next(plan, log, write);
    Next(plan, log + [write], look);
    longer := log + [write] + [look];
    assert longer[|log|] == write && longer[|log| + 1] == look;
    WrittenAfter(log, longer, i, first);
    LookedAtGrows(log, longer, i, first);
  }

  /** The channel passes its test. */
  lemma TestPasses(plan: Plan, log: seq<Event>, i: nat, first: Option<Channel>, seen: Site, c: Channel) returns (longer: seq<Event>)
    requires i < |plan.resources| && Safe(plan, log) && Cleared(plan, log) && LookedAt(log, i, first) && Looked(seen) in log
    requires UpToDate(plan, log, i, first, seen) && Tagged(TagOf(plan, i), seen.channels) == [c]
    ensures Safe(plan, longer) && Cleared(plan, longer) && LookedAt(longer, i, first) && Mine(plan, longer, i, c.id, seen)
    ensures UpToDate(plan, longer, i, first, seen) && Tested(i, c.id, true) in longer
  {
    var test := Tested(i, c.id, true);
    longer := log + [test];
    Next(plan, log, test);
    LookedAtGrows(log, longer, i, first);
    UpToDateGrows(plan, log, longer, i, first, seen);
    assert longer[|log|] == test;
    StillIn(log, longer, Looked(seen));
  }

  /** The operator has switched the channel off by the time it is put in service all the same. */
  lemma SwitchesOn(plan: Plan, log: seq<Event>, i: nat, first: Option<Channel>, seen: Site, c: Channel) returns (longer: seq<Event>)
    requires i < |plan.resources| && Safe(plan, log) && Cleared(plan, log) && LookedAt(log, i, first)
    requires plan.resources[i].desired.enabled && !Locked(plan.resources[i], plan.resume, first)
    requires Mine(plan, log, i, c.id, seen) && Tested(i, c.id, true) in log && UpToDate(plan, log, i, first, seen)
    requires Tagged(TagOf(plan, i), seen.channels) == [c] && c.status != Enabled
    requires ShownOn(c.id, first) || c.status != ManuallyDisabled
    ensures Overrides(plan, longer, i, first)
  {
    var at := seen.(channels := [c.(status := ManuallyDisabled)]);
    SwitchAllowed(plan, log, i, c, seen, first, at);
    longer := log + [SwitchedOn(i, c.id, seen, first, at)];
    assert at.channels[0].id == c.id;
    assert Only(Tagged(TagOf(plan, i), seen.channels)) == Some(c);
  }

  /** A site with the planned ratios and these channels. */
  lemma PricedSite(plan: Plan, channels: seq<Channel>) returns (site: Site)
    requires KeysDistinct(plan.groups) && AllPositive(plan.groups)
    ensures site.channels == channels && RatiosHold(site, plan.groups)
  {
    MergeRatiosExact(map[], plan.groups);
    site := Site(MergeRatios(map[], plan.groups).value.0, map[], channels);
    SetRatiosHold(site, plan.groups);
  }

  /** The first look does not call for a write, but shows the channel out of service. */
  lemma OverrideUnwritten(plan: Plan, log: seq<Event>, i: nat, first: Option<Channel>, seen: Site) returns (longer: seq<Event>)
    requires i < |plan.resources| && Safe(plan, log) && Cleared(plan, log) && LookedAt(log, i, first) && Looked(seen) in log
    requires first.Some? && Tagged(TagOf(plan, i), seen.channels) == [first.value]
    requires LeadsToSwitch(plan, i, first) && Lockable(plan, i) && !NeedsWrite(plan.codec, plan.resources[i], first)
    ensures Overrides(plan, longer, i, first)
  {
    longer := TestPasses(plan, log, i, first, seen, first.value);
    longer := SwitchesOn(plan, longer, i, first, seen, first.value);
  }

  /** The first look calls for a write, after which the channel is seen switched off or out of service. */
  lemma OverrideWritten(plan: Plan, log: seq<Event>, i: nat, first: Option<Channel>, seen: Site, c: Channel) returns (longer: seq<Event>)
    requires i < |plan.resources| && Safe(plan, log) && Cleared(plan, log) && LookedAt(log, i, first) && Looked(seen) in log
    requires first == Only(Tagged(TagOf(plan, i), seen.channels)) && Tagged(TagOf(plan, i), [c]) == [c]
    requires LeadsToSwitch(plan, i, first) && NeedsWrite(plan.codec, plan.resources[i], first)
    requires c.status != Enabled && (ShownOn(c.id, first) || c.status != ManuallyDisabled)
    ensures Overrides(plan, longer, i, first)
  {
    var again := seen.(channels := [c]);
    longer := WriteAndLook(plan, log, i, first, seen, again);
    longer := TestPasses(plan, longer, i, first, again, c);
    longer := SwitchesOn(plan, longer, i, first, again, c);
  }

  /** The channel as it is seen after the write. */
  function AfterWrite(plan: Plan, i: nat, first: Option<Channel>): Channel
    requires i < |plan.resources| && plan.codec.stored(plan.resources[i].desired).Some?
  {
    var config := plan.codec.stored(plan.resources[i].desired).value;
    if first.None? then Channel(0, TagOf(plan, i), config, AutoDisabled)
    else first.value.(config := config, status := ManuallyDisabled)
  }

  /** Some run reaches the turn of the resource with this first look. */
  lemma TurnReached(plan: Plan, i: nat, first: Option<Channel>) returns (log: seq<Event>, seen: Site)
    requires TagsDistinct(plan) && KeysDistinct(plan.groups) && AllPositive(plan.groups)
    requires i < |plan.resources| && plan.resources[i].desired.enabled && plan.resources[i].available
    requires first.Some? ==> first.value.tag == TagOf(plan, i)
    ensures Safe(plan, log) && Cleared(plan, log) && LookedAt(log, i, first) && Looked(seen) in log
    ensures Tagged(TagOf(plan, i), seen.channels) == if first.Some? then [first.value] else []
  {
    var channels := if first.Some? then [first.value] else [];
    OthersAbsent(plan, i, channels);
    seen := PricedSite(plan, channels);
    log := TurnsReached(plan, seen);
    log := TurnStarts(plan, log, i, first, seen);
  }

  lemma OverrideFrom(plan: Plan, i: nat, first: Option<Channel>) returns (log: seq<Event>)
    requires TagsDistinct(plan) && KeysDistinct(plan.groups) && AllPositive(plan.groups)
    requires i < |plan.resources| && Lockable(plan, i) && (first.Some? ==> first.value.tag == TagOf(plan, i))
    requires LeadsToSwitch(plan, i, first)
    ensures Overrides(plan, log, i, first)
  {
    var seen;
    log, seen := TurnReached(plan, i, first);
    if NeedsWrite(plan.codec, plan.resources[i], first) {
      OthersAbsent(plan, i, [AfterWrite(plan, i, first)]);
      log := OverrideWritten(plan, log, i, first, seen, AfterWrite(plan, i, first));
    } else {
      log := OverrideUnwritten(plan, log, i, first, seen);
    }
  }

  /**
   For every well-formed plan and every channel that an operator may lock: some run overrides
   the operator exactly when the first look leads to putting the channel in service, that is
   when it is not locked then, and is to be written or out of service. The switch is looked
   for only in the first look of a turn.
   */
  lemma OverrideExactly(plan: Plan, i: nat, first: Option<Channel>)
    requires TagsDistinct(plan) && KeysDistinct(plan.groups) && AllPositive(plan.groups)
    requires i < |plan.resources| && Lockable(plan, i) && (first.Some? ==> first.value.tag == TagOf(plan, i))
    ensures (exists log :: Overrides(plan, log, i, first)) <==> LeadsToSwitch(plan, i, first)
  {
    if log :| Overrides(plan, log, i, first) { SwitchFollowsLook(plan, log, |log| - 1); }
    if LeadsToSwitch(plan, i, first) { var log := OverrideFrom(plan, i, first); }
  }
}
