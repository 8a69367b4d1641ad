/** Batch synchronization through the remote site's own atomic interface. */
module ManagedSync {
  import opened Wrappers
  import opened Sequences
  import opened ChannelCodec
  import opened SiteState
  import opened SiteGateway
  import opened SiteSafety
  import opened SiteWorld

  /** A state report; `versions` holds the credential version of the last channel with each tag. */
  datatype Report = Report(hash: string, basis: string, site: Site, versions: map<string, nat>, conflicts: seq<string>)

  /** One channel of a request; the key is present when the credential is available. */
  datatype Entry = Entry(desired: Desired, keyed: bool, resume: bool)

  datatype Request = Request(operation: nat, version: nat, expected: string, entries: seq<Entry>, groups: seq<Group>)

  datatype Features = Features(complete: bool, contract: string, version: string, database: string, basisHash: string, basisGiven: bool)

  datatype Limits = Limits(channels: int, groups: int, models: int, groupKeyBytes: int, requestBytes: int)

  /** What a capability query tells the run to do. */
  datatype Query = Capable(features: Features, limits: Limits) | Denied | NotFound | Unavailable | Broken

  datatype Route = Managed | Staged | Refused

  const CONTRACT := "m4-managed-sync-v1"

  // ---------- choosing the route ----------

  function ModelCount(resources: seq<Resource>): nat {
    if resources == [] then 0 else ModelCount(resources[..|resources| - 1]) + |resources[|resources| - 1].desired.models|
  }

  /** Every group key a request mentions. */
  predicate KeyOf(plan: Plan, key: string) {
    || (exists i :: 0 <= i < |plan.groups| && plan.groups[i].key == key)
    || (exists i :: 0 <= i < |plan.resources| && key in GroupKeys(plan.resources[i].desired))
  }

  function LongestKey(keys: seq<string>): (n: nat)
    ensures forall i :: 0 <= i < |keys| ==> |keys[i]| <= n
    ensures n == 0 || exists i :: 0 <= i < |keys| && |keys[i]| == n
  {
    if keys == [] then 0
    else
      var before, last := LongestKey(keys[..|keys| - 1]), |keys[|keys| - 1]|;
      if last > before then last else before
  }

  function AllKeys(resources: seq<Resource>): seq<string> {
    if resources == [] then [] else AllKeys(resources[..|resources| - 1]) + GroupKeys(resources[|resources| - 1].desired)
  }

  function GroupNames(groups: seq<Group>): seq<string> {
    seq(|groups|, i requires 0 <= i < |groups| => groups[i].key)
  }

  predicate Sufficient(f: Features, l: Limits, plan: Plan) {
    && f.contract == CONTRACT && f.version != "" && f.complete
    && f.database in {"sqlite", "mysql", "postgres"}
    && l.channels >= |plan.resources| && l.groups >= |plan.groups| && l.models >= ModelCount(plan.resources)
    && l.groupKeyBytes >= LongestKey(AllKeys(plan.resources) + GroupNames(plan.groups)) && l.requestBytes > 0
    && |f.basisHash| == 64 && f.basisGiven
  }

  /** The staged path is used only where the batch interface is absent or refuses the credential. */
  function RouteOf(query: Query, approved: bool, plan: Plan): Route {
    match query
    case Denied => Staged
    case NotFound => Staged
    case Unavailable => Staged
    case Broken => Refused
    case Capable(f, l) => if Sufficient(f, l, plan) && approved then Managed else Refused
  }

  lemma {:induction false} AllKeysMember(resources: seq<Resource>, i: nat, key: string)
    requires i < |resources| && key in GroupKeys(resources[i].desired)
    ensures key in AllKeys(resources)
  {
    if i < |resources| - 1 { AllKeysMember(resources[..|resources| - 1], i, key); }
  }

  /** A batch is only attempted for plans within every announced limit, whatever group a channel names. */
  lemma ManagedFits(query: Query, approved: bool, plan: Plan, key: string)
    requires RouteOf(query, approved, plan) == Managed
    ensures query.Capable? && approved
    ensures |plan.resources| <= query.limits.channels && |plan.groups| <= query.limits.groups
    ensures KeyOf(plan, key) ==> |key| <= query.limits.groupKeyBytes
  {
    if KeyOf(plan, key) {
      var keys := AllKeys(plan.resources) + GroupNames(plan.groups);
      if i :| 0 <= i < |plan.groups| && plan.groups[i].key == key {
        assert GroupNames(plan.groups)[i] == key;
      } else {
        var i :| 0 <= i < |plan.resources| && key in GroupKeys(plan.resources[i].desired);
        AllKeysMember(plan.resources, i, key);
      }
      LongestCovers(keys, key);
    }
  }

  lemma LongestCovers(keys: seq<string>, key: string)
    requires key in keys
    ensures |key| <= LongestKey(keys)
  {
    var i :| 0 <= i < |keys| && keys[i] == key;
  }

  /** The site announces the contract, a version, every feature, a known database and its pricing. */
  predicate Announced(f: Features) {
    && f.contract == "m4-managed-sync-v1" && f.version != "" && f.complete
    && (f.database == "sqlite" || f.database == "mysql" || f.database == "postgres")
    && |f.basisHash| == 64 && f.basisGiven
  }

  /** The plan is within the limits. */
  ghost predicate Fits(l: Limits, plan: Plan) {
    && |plan.resources| <= l.channels && |plan.groups| <= l.groups && ModelCount(plan.resources) <= l.models
    && 0 <= l.groupKeyBytes && 0 < l.requestBytes
    && forall key :: KeyOf(plan, key) ==> |key| <= l.groupKeyBytes
  }

  /** The models of all resources are counted. */
  lemma {:induction false} ModelCountConcat(a: seq<Resource>, b: seq<Resource>)
    ensures ModelCount(a + b) == ModelCount(a) + ModelCount(b)
    ensures |b| == 1 ==> ModelCount(b) == |b[0].desired.models|
  {
    if b == [] {
      assert a + b == a;
    } else {
      ModelCountConcat(a, b[..|b| - 1]);
      assert (a + b)[..|a + b| - 1] == a + b[..|b| - 1];
    }
  }

  lemma {:induction false} AllKeysOrigin(resources: seq<Resource>, key: string)
    requires key in AllKeys(resources)
    ensures exists i :: 0 <= i < |resources| && key in GroupKeys(resources[i].desired)
  {
    var n := |resources| - 1;
    if key in AllKeys(resources[..n]) {
      AllKeysOrigin(resources[..n], key);
      var i :| 0 <= i < n && key in GroupKeys(resources[..n][i].desired);
      assert key in GroupKeys(resources[i].desired);
    }
  }

  lemma NamedGroup(groups: seq<Group>, key: string)
    ensures key in GroupNames(groups) <==> exists i :: 0 <= i < |groups| && groups[i].key == key
  {
    if i :| 0 <= i < |groups| && groups[i].key == key { assert GroupNames(groups)[i] == key; }
  }

  lemma NamedResource(resources: seq<Resource>, key: string)
    ensures key in AllKeys(resources) <==> exists i :: 0 <= i < |resources| && key in GroupKeys(resources[i].desired)
  {
    if key in AllKeys(resources) { AllKeysOrigin(resources, key); }
    if i :| 0 <= i < |resources| && key in GroupKeys(resources[i].desired) { AllKeysMember(resources, i, key); }
  }

  lemma RequestKeys(plan: Plan, key: string)
    ensures key in AllKeys(plan.resources) + GroupNames(plan.groups) <==> KeyOf(plan, key)
  {
    NamedResource(plan.resources, key);
    NamedGroup(plan.groups, key);
  }

  lemma LongestFits(keys: seq<string>, limit: int)
    ensures LongestKey(keys) <= limit <==> 0 <= limit && forall key <- keys :: |key| <= limit
  {
    forall i | 0 <= i < |keys| ensures keys[i] in keys { }
  }

  /** The keys of a request are within a limit exactly when the longest is. */
  lemma KeysFit(plan: Plan, limit: int)
    ensures LongestKey(AllKeys(plan.resources) + GroupNames(plan.groups)) <= limit <==>
            0 <= limit && forall key :: KeyOf(plan, key) ==> |key| <= limit
  {
    var keys := AllKeys(plan.resources) + GroupNames(plan.groups);
    forall key ensures key in keys <==> KeyOf(plan, key) { RequestKeys(plan, key); }
    LongestFits(keys, limit);
  }

  /** When the batch interface is used, and when the staged path is. */
  lemma RouteExactly(query: Query, approved: bool, plan: Plan)
    ensures RouteOf(query, approved, plan) == Managed <==>
            query.Capable? && approved && Announced(query.features) && Fits(query.limits, plan)
    ensures RouteOf(query, approved, plan) == Staged <==> query == Denied || query == NotFound || query == Unavailable
  {
    if query.Capable? { KeysFit(plan, query.limits.groupKeyBytes); }
  }

  // ---------- the batch ----------

  /** The remote batch interface: it may answer anything; requests are noted when sent. */
  class BatchGateway {
    ghost var requests: seq<Request>

    constructor ()
      ensures requests == []
    {
      requests := [];
    }

    method ReadState() returns (r: Option<Report>) {
      if * { return None; }
      var report: Report := *;
      r := Some(report);
    }

    method Apply(request: Request) returns (r: Option<Report>)
      modifies this
      ensures requests == old(requests) + [request]
    {
      requests := requests + [request];
      if * { return None; }
      var report: Report := *;
      r := Some(report);
    }
  }

  /** The entry asks for the channel of the resource, with its key where that is at hand and resumed where the plan says so. */
  predicate EntrySays(plan: Plan, i: nat, e: Entry)
    requires i < |plan.resources|
  {
    var r := plan.resources[i];
    e.desired == r.desired && e.keyed == r.available && (e.resume <==> r.relation in plan.resume)
  }

  predicate Available(r: Resource) { r.desired.enabled ==> r.available }

  /** The credential is at hand where it is needed, and where it is at hand it can be decrypted. */
  predicate Readable(vault: nat -> bool, r: Resource) { Available(r) && (r.available ==> vault(r.relation)) }

  /** The request mirrors the plan, one entry per resource, guarded by the state that was read. */
  ghost predicate Mirrors(plan: Plan, operation: nat, before: Report, request: Request) {
    && request.operation == operation && request.version == plan.version
    && request.expected == before.hash && request.groups == plan.groups
    && |request.entries| == |plan.resources|
    && forall i :: 0 <= i < |plan.resources| ==> Available(plan.resources[i]) && EntrySays(plan, i, request.entries[i])
  }

  /** `vault` tells of which relations the credential can be decrypted. */
  method BuildEntries(plan: Plan, vault: nat -> bool) returns (r: Result<seq<Entry>, Failure>)
    ensures r.Success? <==> forall i :: 0 <= i < |plan.resources| ==> Readable(vault, plan.resources[i])
    ensures r.Failure? ==> r.error == CredentialUnavailable
    ensures r.Success? ==> |r.value| == |plan.resources| && forall i :: 0 <= i < |r.value| ==> EntrySays(plan, i, r.value[i])
  {
    var entries, i := [], 0;
    while i < |plan.resources|
      invariant i == |entries| <= |plan.resources|
      invariant forall k :: 0 <= k < i ==> Readable(vault, plan.resources[k]) && EntrySays(plan, k, entries[k])
    {
      var resource := plan.resources[i];
      if resource.desired.enabled && !resource.available { return Failure(CredentialUnavailable); }
      if resource.available && !vault(resource.relation) { return Failure(CredentialUnavailable); }
      entries := entries + [Entry(resource.desired, resource.available, resource.relation in plan.resume)];
      i := i + 1;
    }
    r := Success(entries);
  }

  /** The remote side took the credential over: it had none for the tag, or another version. */
  predicate CredentialTaken(r: Resource, before: Report) {
    r.available &&
    (r.desired.tag !in before.versions || before.versions[r.desired.tag] != r.desired.credential.1)
  }

  /**
   The confirmation names the channel that carries the tag after the batch, the plan and the
   wanted status. The planned credential counts as applied when it was sent and the channel
   was not there before, or had another version of it; otherwise the recorded one stays.
   */
  predicate ConfirmationSays(plan: Plan, i: nat, was: Binding, before: Report, after: Report, b: Binding)
    requires i < |plan.resources|
  {
    var r := plan.resources[i];
    var sent, present := r.available, r.desired.tag in before.versions;
    && b.planVersion == Some(plan.version) && b.enabled == Some(r.desired.enabled)
    && (b.external.None? ==> forall c <- after.site.channels :: c.tag != r.desired.tag)
    && (b.external.Some? ==> exists c <- after.site.channels :: c.tag == r.desired.tag && c.id == b.external.value)
    && (b.credential ==
        if sent && (!present || before.versions[r.desired.tag] != r.desired.credential.1) then r.desired.credential else was.credential)
  }

  lemma FoundSays(tag: string, channels: seq<Channel>, found: Option<Channel>)
    requires found == Only(Tagged(tag, channels)) && |Tagged(tag, channels)| <= 1
    ensures found.None? ==> forall c <- channels :: c.tag != tag
    ensures found.Some? ==> exists c <- channels :: c.tag == tag && c.id == found.value.id
  {
    FilterMembers(HasTag(tag), channels);
    if found.Some? {
      assert Tagged(tag, channels) == [found.value] && found.value in Tagged(tag, channels);
    } else {
      assert Tagged(tag, channels) == [];
      forall c | c in channels ensures c.tag != tag { assert c !in Tagged(tag, channels); }
    }
  }

  /** Confirms every resource from the state the batch left; stops at the first store failure. */
  method ConfirmAll(plan: Plan, ledger: Ledger, before: Report, after: Report) returns (failure: Option<Failure>)
    requires |ledger.bindings| == |plan.resources|
    modifies ledger`bindings
    ensures |ledger.bindings| == |plan.resources|
    ensures failure.None? ==>
              forall i :: 0 <= i < |plan.resources| ==>
                ConfirmationSays(plan, i, old(ledger.bindings)[i], before, after, ledger.bindings[i])
    ensures ledger.steady && ChannelsHold(plan.codec, plan.resources, after.site) ==> failure.None?
  {
    var i := 0;
    while i < |plan.resources|
      invariant i <= |plan.resources| == |ledger.bindings|
      invariant forall k :: 0 <= k < i ==>
                  ConfirmationSays(plan, k, old(ledger.bindings)[k], before, after, ledger.bindings[k])
      invariant forall k :: i <= k < |plan.resources| ==> ledger.bindings[k] == old(ledger.bindings)[k]
    {
      var r := plan.resources[i];
      assert ChannelsHold(plan.codec, plan.resources, after.site) ==> ChannelHolds(plan.codec, r, after.site);
      LocateOwned(r.desired.tag, r.binding.external, after.site.channels);
      var found := LocateManagedChannel(r.desired.tag, r.binding.external, after.site.channels);
      if found.Failure? { return Some(found.error); }
      FoundSays(r.desired.tag, after.site.channels, found.value);
      var external := if found.value.Some? then Some(found.value.value.id) else None;
      var ok := ledger.Confirm(i, external, plan.version, r.desired, CredentialTaken(r, before));
      if !ok { return Some(StoreFailed); }
      i := i + 1;
    }
    failure := None;
  }

  /** No conflict was reported, and the pricing is the reviewed one. */
  predicate Sound(plan: Plan, report: Report) { report.conflicts == [] && report.basis == plan.basis }

  /** Nothing stands in the way of the batch: a sound state was read and every credential is readable. */
  ghost predicate MaySend(plan: Plan, vault: nat -> bool, seen: Option<Report>) {
    && seen.Some? && seen.value.conflicts == [] && seen.value.basis == plan.basis
    && forall r <- plan.resources :: (r.desired.enabled ==> r.available) && (r.available ==> vault(r.relation))
  }

  /** The batch was answered with a sound state exactly as planned. */
  ghost predicate CameOut(plan: Plan, seen: Option<Report>, left: Option<Report>) {
    && seen.Some? && left.Some? && left.value.conflicts == [] && left.value.basis == plan.basis
    && Exact(plan.codec, plan.groups, plan.resources, seen.value.site, left.value.site)
  }

  lemma AllReadable(plan: Plan, vault: nat -> bool)
    ensures (forall i :: 0 <= i < |plan.resources| ==> Readable(vault, plan.resources[i])) <==>
            forall r <- plan.resources :: (r.desired.enabled ==> r.available) && (r.available ==> vault(r.relation))
  {
    forall i | 0 <= i < |plan.resources| ensures plan.resources[i] in plan.resources { }
  }

  /** Reads, sends one batch, and checks what it left. */
  method ApplyBatch(plan: Plan, operation: nat, gateway: BatchGateway, vault: nat -> bool)
    returns (r: Result<(Report, Report), Failure>, ghost seen: Option<Report>, ghost left: Option<Report>)
    modifies gateway
    ensures |gateway.requests| == |old(gateway.requests)| + 1 <==> MaySend(plan, vault, seen)
    ensures r.Success? <==> MaySend(plan, vault, seen) && CameOut(plan, seen, left)
    ensures r.Success? ==> seen == Some(r.value.0) && left == Some(r.value.1)
    ensures old(gateway.requests) <= gateway.requests && |gateway.requests| <= |old(gateway.requests)| + 1
    ensures r.Success? ==>
              && |gateway.requests| == |old(gateway.requests)| + 1
              && Mirrors(plan, operation, r.value.0, gateway.requests[|gateway.requests| - 1])
              && Sound(plan, r.value.0) && Sound(plan, r.value.1)
              && Exact(plan.codec, plan.groups, plan.resources, r.value.0.site, r.value.1.site)
  {
    left := None;
    var before := gateway.ReadState();
    seen := before;
    AllReadable(plan, vault);
    if before.None? { return Failure(GatewayFailed), seen, left; }
    if |before.value.conflicts| > 0 { return Failure(ReportedConflict), seen, left; }
    if before.value.basis != plan.basis { return Failure(BasisChanged), seen, left; }
    var entries := BuildEntries(plan, vault);
    if entries.Failure? { return Failure(entries.error), seen, left; }
    var after := gateway.Apply(Request(operation, plan.version, before.value.hash, entries.value, plan.groups));
    left := after;
    if after.None? { return Failure(GatewayFailed), seen, left; }
    if |after.value.conflicts| > 0 { return Failure(ReportedConflict), seen, left; }
    if after.value.basis != plan.basis { return Failure(BasisChanged), seen, left; }
    var drift := VerifySite(plan.codec, plan.groups, plan.resources, before.value.site, after.value.site);
    r := if drift.Some? then Failure(drift.value) else Success((before.value, after.value));
  }

  /**
   Runs a whole-site plan as one batch. At most one request is sent, guarded by the state
   read before it; nothing is confirmed unless the state it left is exactly as planned; and
   completion means every confirmation describes that state.
   */
  method RunManagedSite(plan: Plan, operation: nat, gateway: BatchGateway, ledger: Ledger, vault: nat -> bool)
    returns (failure: Option<Failure>, ghost before: Report, ghost after: Report, ghost seen: Option<Report>, ghost left: Option<Report>)
    requires |ledger.bindings| == |plan.resources|
    modifies gateway, ledger
    ensures old(gateway.requests) <= gateway.requests && |gateway.requests| <= |old(gateway.requests)| + 1
    ensures failure.Some? ==> ledger.completed == old(ledger.completed)
    ensures failure.None? ==> MaySend(plan, vault, seen) && CameOut(plan, seen, left)
    ensures ledger.steady ==> (failure.None? <==> MaySend(plan, vault, seen) && CameOut(plan, seen, left))
    ensures ledger.bindings != old(ledger.bindings) ==>
              Exact(plan.codec, plan.groups, plan.resources, before.site, after.site)
    ensures failure.None? ==>
              && ledger.completed && ledger.pricesConfirmed
              && |gateway.requests| == |old(gateway.requests)| + 1
              && Mirrors(plan, operation, before, gateway.requests[|gateway.requests| - 1])
              && Sound(plan, before) && Sound(plan, after)
              && Exact(plan.codec, plan.groups, plan.resources, before.site, after.site)
              && |ledger.bindings| == |plan.resources|
              && forall i :: 0 <= i < |plan.resources| ==>
                   ConfirmationSays(plan, i, old(ledger.bindings)[i], before, after, ledger.bindings[i])
  {
    before := Report("", "", Site(map[], map[], []), map[], []);
    after := before;
    var batch;
    batch, seen, left := ApplyBatch(plan, operation, gateway, vault);
    if batch.Failure? { return Some(batch.error), before, after, seen, left; }
    before, after := batch.value.0, batch.value.1;
    failure := ConfirmAll(plan, ledger, batch.value.0, batch.value.1);
    if failure.Some? { return; }
    var ok := ledger.ConfirmPrices();
    if !ok { return Some(StoreFailed), before, after, seen, left; }
    ok := ledger.Complete();
    failure := if ok then None else Some(StoreFailed);
  }
}
