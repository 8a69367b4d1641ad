/** The remote site behind its management interface, and the store that records confirmations. */
module SiteGateway {
  import opened Wrappers
  import opened Sequences
  import opened ChannelCodec
  import opened SiteState

  datatype Plan = Plan(version: nat, resources: seq<Resource>, groups: seq<Group>, resume: set<nat>, basis: string, codec: Codec)

  /**
   What a run did and saw, in order. Writes are noted when issued, whatever becomes of them;
   `i` is the position of the resource in the plan, `seen` a state that was read before.
   `at` is the remote site as the request found it, and `Stored` a confirmation that reached
   the store.
   */
  datatype Event =
    | Looked(site: Site)
    | BasisChecked(ok: bool)
    | ShutDown(i: nat, id: nat, seen: Site)
    | SwitchedOn(i: nat, id: nat, seen: Site, first: Option<Channel>, at: Site)
    | Created(i: nat)
    | Updated(i: nat, id: nat, seen: Site)
    | Tested(i: nat, id: nat, passed: bool)
    | RatiosWritten(ratios: map<string, Ratio>, seen: Site)
    | VisibilityWritten(visible: map<string, string>, seen: Site)
    | Off(i: nat, seen: Site)
    | Turn(i: nat, first: Option<Channel>, seen: Site)
    | On(i: nat, seen: Site)
    | Stored(i: nat)
    | PricesRead(seen: Site)

  // ---------- what the remote site does with a write ----------

  function SetStatus(id: nat, status: Status): Channel -> Channel {
    (c: Channel) => if c.id == id then c.(status := status) else c
  }

  function SetConfig(id: nat, tag: string, config: Config): Channel -> Channel {
    (c: Channel) => if c.id == id then c.(tag := tag, config := config) else c
  }

  class Gateway {
    /** A steady gateway loses nothing and nobody else changes the site; any other may do anything. */
    const steady: bool
    const codec: Codec
    var site: Site
    var basis: string
    var nextId: nat
    /** Counts every request but reads; one that cannot be encoded is never sent. */
    var writes: nat
    ghost var log: seq<Event>

    constructor (steady: bool, codec: Codec, site: Site, basis: string, nextId: nat)
      ensures this.steady == steady && this.codec == codec && this.site == site && this.basis == basis && this.nextId == nextId
      ensures writes == 0 && log == []
    {
      this.steady, this.codec, this.site, this.basis, this.nextId := steady, codec, site, basis, nextId;
      writes, log := 0, [];
    }

    /** A run talks to the site through a client of its own. */
    ghost method NewSession()
      modifies this`log
      ensures log == []
    {
      log := [];
    }

    method Disturb()
      modifies this`site, this`basis, this`nextId
      ensures steady ==> unchanged(this)
    {
      if !steady { site, basis, nextId := *, *, *; }
    }

    ghost method Note(e: Event)
      modifies this`log
      ensures log == old(log) + [e]
    {
      log := log + [e];
    }

    method Look() returns (r: Option<Site>)
      modifies this`site, this`basis, this`nextId, this`log
      ensures steady ==> r == Some(site) && unchanged(`site, `basis, `nextId)
      ensures log == if r.Some? then old(log) + [Looked(r.value)] else old(log)
    {
      Disturb();
      if !steady {
        var lost: bool := *;
        if lost { return None; }
      }
      r := Some(site);
      Note(Looked(site));
    }

    method CheckBasis(expected: string) returns (ok: bool)
      modifies this`site, this`basis, this`nextId, this`log
      ensures steady ==> ok == (basis == expected) && unchanged(`site, `basis, `nextId)
      ensures log == old(log) + [BasisChecked(ok)]
    {
      Disturb();
      ok := basis == expected;
      if !steady { ok := *; }
      Note(BasisChecked(ok));
    }

    method SetEnabled(i: nat, id: nat, on: bool, ghost seen: Site, ghost first: Option<Channel>) returns (ok: bool)
      modifies this
      ensures log == old(log) + [if on then SwitchedOn(i, id, seen, first, old(site)) else ShutDown(i, id, seen)]
      ensures writes == old(writes) + 1
      ensures steady ==>
                && ok && unchanged(`basis, `nextId)
                && site == old(site).(channels := Map(SetStatus(id, if on then Enabled else ManuallyDisabled), old(site.channels)))
    {
      Note(if on then SwitchedOn(i, id, seen, first, site) else ShutDown(i, id, seen));
      site := site.(channels := Map(SetStatus(id, if on then Enabled else ManuallyDisabled), site.channels));
      ok := EndWrite();
    }

    /** A new channel starts switched off. */
    method Create(i: nat, d: Desired) returns (ok: bool)
      modifies this
      ensures log == old(log) + [Created(i)]
      ensures writes == old(writes) + if codec.stored(d).Some? then 1 else 0
      ensures codec.stored(d).None? ==> !ok
      ensures steady ==>
                && ok == codec.stored(d).Some? && unchanged(`basis)
                && (ok ==> nextId == old(nextId) + 1)
                && (ok ==> site == old(site).(channels := old(site.channels) +
                                                          [Channel(old(nextId), d.tag, codec.stored(d).value, ManuallyDisabled)]))
    {
      Note(Created(i));
      var config := codec.stored(d);
      if config.None? {
        Disturb();
        return false;
      }
      site := site.(channels := site.channels + [Channel(nextId, d.tag, config.value, ManuallyDisabled)]);
      nextId := nextId + 1;
      ok := EndWrite();
    }

    /** An update leaves the status alone. */
    method Update(i: nat, id: nat, d: Desired, ghost seen: Site) returns (ok: bool)
      modifies this
      ensures log == old(log) + [Updated(i, id, seen)]
      ensures writes == old(writes) + if codec.stored(d).Some? then 1 else 0
      ensures codec.stored(d).None? ==> !ok
      ensures steady ==>
                && ok == codec.stored(d).Some? && unchanged(`basis, `nextId)
                && (ok ==> site == old(site).(channels := Map(SetConfig(id, d.tag, codec.stored(d).value), old(site.channels))))
    {
      Note(Updated(i, id, seen));
      var config := codec.stored(d);
      if config.None? {
        Disturb();
        return false;
      }
      site := site.(channels := Map(SetConfig(id, d.tag, config.value), site.channels));
      ok := EndWrite();
    }

    method Test(i: nat, id: nat) returns (ok: bool)
      modifies this
      ensures log == old(log) + [Tested(i, id, ok)]
      ensures writes == old(writes) + 1
      ensures steady ==> ok && unchanged(`site, `basis, `nextId)
    {
      ok := EndWrite();
      Note(Tested(i, id, ok));
    }

    method SetGroupRatios(ratios: map<string, Ratio>, ghost seen: Site) returns (ok: bool)
      modifies this
      ensures log == old(log) + [RatiosWritten(ratios, seen)]
      ensures writes == old(writes) + if AllAcceptable(ratios) then 1 else 0
      ensures steady ==>
                && ok == AllAcceptable(ratios) && unchanged(`basis, `nextId)
                && (ok ==> site == old(site).(ratios := ratios))
    {
      Note(RatiosWritten(ratios, seen));
      if !AllAcceptable(ratios) {
        Disturb();
        return false;
      }
      site := site.(ratios := ratios);
      ok := EndWrite();
    }

    method SetUserUsableGroups(visible: map<string, string>, ghost seen: Site) returns (ok: bool)
      modifies this
      ensures log == old(log) + [VisibilityWritten(visible, seen)]
      ensures writes == old(writes) + 1
      ensures steady ==> ok && unchanged(`basis, `nextId) && site == old(site).(visible := visible)
    {
      Note(VisibilityWritten(visible, seen));
      site := site.(visible := visible);
      ok := EndWrite();
    }

    /** A write may have been lost, or its reply, or somebody else may have written as well. */
    method EndWrite() returns (ok: bool)
      modifies this`site, this`basis, this`nextId, this`writes
      ensures writes == old(writes) + 1
      ensures steady ==> ok && unchanged(`site, `basis, `nextId)
    {
      Disturb();
      writes := writes + 1;
      ok := true;
      if !steady { ok := *; }
    }
  }

  /** The stored confirmations, one per resource of the plan. */
  class Ledger {
    const steady: bool
    var bindings: seq<Binding>
    var pricesConfirmed: bool
    var completed: bool

    constructor (steady: bool, bindings: seq<Binding>)
      ensures this.steady == steady && this.bindings == bindings && !pricesConfirmed && !completed
    {
      this.steady, this.bindings := steady, bindings;
      pricesConfirmed, completed := false, false;
    }

    method Reachable() returns (ok: bool)
      ensures steady ==> ok
    {
      ok := true;
      if !steady { ok := *; }
    }

    method Bind(i: nat, id: nat) returns (ok: bool)
      requires i < |bindings|
      modifies this`bindings
      ensures steady ==> ok
      ensures bindings == if ok then old(bindings)[i := old(bindings)[i].(external := Some(id))] else old(bindings)
    {
      ok := Reachable();
      if ok { bindings := bindings[i := bindings[i].(external := Some(id))]; }
    }

    /** The credential is recorded only when it was written. */
    method Confirm(i: nat, external: Option<nat>, version: nat, d: Desired, applied: bool) returns (ok: bool)
      requires i < |bindings|
      modifies this`bindings
      ensures steady ==> ok
      ensures bindings == if ok then old(bindings)[i := Confirmed(old(bindings)[i], external, version, d, applied)] else old(bindings)
    {
      ok := Reachable();
      if ok { bindings := bindings[i := Confirmed(bindings[i], external, version, d, applied)]; }
    }

    method ConfirmPrices() returns (ok: bool)
      modifies this`pricesConfirmed
      ensures steady ==> ok
      ensures ok ==> pricesConfirmed
    {
      ok := Reachable();
      if ok { pricesConfirmed := true; }
    }

    method Complete() returns (ok: bool)
      modifies this`completed
      ensures steady ==> ok
      ensures ok ==> completed
      ensures !ok ==> completed == old(completed)
    {
      ok := Reachable();
      if ok { completed := true; }
    }
  }

  function Confirmed(b: Binding, external: Option<nat>, version: nat, d: Desired, applied: bool): Binding {
    Binding(external, Some(version), Some(d.enabled), if applied then d.credential else b.credential)
  }
}
