/** The remote state of a site, the plan for it, and the comparisons and merges between them. */
module SiteState {
  import opened Wrappers
  import opened Sequences
  import opened ChannelCodec

  /** A decimal text: its value, or something that is not a number. */
  datatype Ratio = Garbage | Number(value: real)

  datatype Status = Enabled | ManuallyDisabled | AutoDisabled | Unknown

  datatype Channel = Channel(id: nat, tag: string, config: Config, status: Status)

  datatype Site = Site(ratios: map<string, Ratio>, visible: map<string, string>, channels: seq<Channel>)

  datatype Group = Group(key: string, name: string, ratio: Ratio, visible: bool)

  /** What the store last confirmed about the channel of a relation. */
  datatype Binding = Binding(
    external: Option<nat>, planVersion: Option<nat>, enabled: Option<bool>, credential: (nat, nat))

  datatype Resource = Resource(relation: nat, desired: Desired, available: bool, binding: Binding)

  /**
   How the remote site keeps a written channel, and when a channel as read equals the desired
   one. What follows holds for any such pair; REMOTE is the one the program uses.
   */
  datatype Codec = Codec(stored: Desired -> Option<Config>, matches: (Desired, string, Config) -> bool)

  function Stored(d: Desired): Option<Config> { if Write(d).Some? then Some(Read(Write(d).value)) else None }

  const REMOTE := Codec(Stored, Matches)

  /** The desired channel survives being written and read back. */
  ghost predicate RoundTrips(codec: Codec, d: Desired) {
    codec.stored(d).Some? && codec.matches(d, d.tag, codec.stored(d).value)
  }

  /** A validated channel survives exactly when its names carry no white space at the ends. */
  lemma RemoteRoundTrips(d: Desired)
    requires ValidDesired(d)
    ensures RoundTrips(REMOTE, d) <==> TrimmedNames(d)
  {
    WriteReadMatches(d);
    assert REMOTE.stored(d) == Stored(d);
    assert REMOTE.matches(d, d.tag, Stored(d).value) == Matches(d, d.tag, Stored(d).value);
  }

  datatype Failure =
    | ResourceConflict | BindingMismatch | InvalidSaleRatio | InvalidGroupRatio
    | RatioDrift | VisibilityDrift | UnmanagedRatio | UnmanagedVisibility
    | StillActive | ChannelDrift | DisableUnconfirmed | CreateUnconfirmed
    | CredentialUnavailable | ManualLock | BasisChanged | GatewayFailed | StoreFailed | ReportedConflict

  // ---------- finding a managed channel ----------

  function HasTag(tag: string): Channel -> bool { (c: Channel) => c.tag == tag }

  function Tagged(tag: string, channels: seq<Channel>): seq<Channel> { Filter(HasTag(tag), channels) }

  function LastWithId(id: nat, channels: seq<Channel>): (r: Option<Channel>)
    ensures r.Some? ==> r.value in channels && r.value.id == id
    ensures r.None? ==> forall i :: 0 <= i < |channels| ==> channels[i].id != id
  {
    if channels == [] then None
    else if channels[|channels| - 1].id == id then Some(channels[|channels| - 1])
    else LastWithId(id, channels[..|channels| - 1])
  }

  function Locate(tag: string, bound: Option<nat>, channels: seq<Channel>): Result<Option<Channel>, Failure> {
    var matching := Tagged(tag, channels);
    var byId := if bound.Some? then LastWithId(bound.value, channels) else None;
    if |matching| > 1 then Failure(ResourceConflict)
    else if byId.Some? then
      if byId.value.tag != tag then Failure(BindingMismatch) else Success(byId)
    else if |matching| == 1 then Success(Some(matching[0]))
    else Success(None)
  }

  function Only(matching: seq<Channel>): Option<Channel> { if |matching| == 1 then Some(matching[0]) else None }

  /** No two channels carry the tag, and the bound channel, where it still exists, carries it. */
  ghost predicate Owned(tag: string, bound: Option<nat>, channels: seq<Channel>) {
    && |Tagged(tag, channels)| <= 1
    && (bound.Some? && LastWithId(bound.value, channels).Some? ==>
          LastWithId(bound.value, channels).value.tag == tag)
  }

  lemma OnlyMember<T>(s: seq<T>, x: T)
    requires |s| <= 1 && x in s
    ensures s == [x]
  {
  }

  /** A managed channel is found exactly when ownership is clear, and then it is the one with the tag. */
  lemma LocateOwned(tag: string, bound: Option<nat>, channels: seq<Channel>)
    ensures Locate(tag, bound, channels).Success? <==> Owned(tag, bound, channels)
    ensures Locate(tag, bound, channels).Success? ==>
              Locate(tag, bound, channels).value == Only(Tagged(tag, channels))
  {
    FilterMembers(HasTag(tag), channels);
    if Owned(tag, bound, channels) && bound.Some? && LastWithId(bound.value, channels).Some? {
      OnlyMember(Tagged(tag, channels), LastWithId(bound.value, channels).value);
    }
  }

  /** The last channel that carries the identifier. */
  predicate LastHolder(id: nat, channels: seq<Channel>, i: int) {
    0 <= i < |channels| && channels[i].id == id && forall j :: i < j < |channels| ==> channels[j].id != id
  }

  /** Two channels carry the tag. */
  ghost predicate Doubled(tag: string, channels: seq<Channel>) {
    exists i, j :: 0 <= i < j < |channels| && channels[i].tag == tag && channels[j].tag == tag
  }

  /** The bound identifier is in use for another tag. */
  ghost predicate BoundElsewhere(tag: string, bound: Option<nat>, channels: seq<Channel>) {
    bound.Some? && exists i :: LastHolder(bound.value, channels, i) && channels[i].tag != tag
  }

  lemma {:induction false} FilteredOnce<T(!new)>(p: T -> bool, s: seq<T>)
    ensures |Filter(p, s)| > 0 <==> exists i :: 0 <= i < |s| && p(s[i])
    ensures |Filter(p, s)| > 1 <==> exists i, j :: 0 <= i < j < |s| && p(s[i]) && p(s[j])
  {
    if s != [] {
      var n := |s| - 1;
      FilteredOnce(p, s[..n]);
      if i :| 0 <= i < n && p(s[..n][i]) { assert p(s[i]); }
      if i, j :| 0 <= i < j < n && p(s[..n][i]) && p(s[..n][j]) { assert p(s[i]) && p(s[j]); }
      if i :| 0 <= i < n && p(s[i]) { assert p(s[..n][i]); }
      if i, j :| 0 <= i < j < n && p(s[i]) && p(s[j]) { assert p(s[..n][i]) && p(s[..n][j]); }
    }
  }

  lemma {:induction false} LastHolderFound(id: nat, channels: seq<Channel>)
    ensures match LastWithId(id, channels)
            case Some(c) => exists i :: LastHolder(id, channels, i) && channels[i] == c
            case None => forall i :: !LastHolder(id, channels, i)
  {
    if channels != [] {
      var n := |channels| - 1;
      if channels[n].id == id {
        assert LastHolder(id, channels, n);
      } else {
        LastHolderFound(id, channels[..n]);
        if LastWithId(id, channels[..n]).Some? {
          var i :| LastHolder(id, channels[..n], i) && channels[..n][i] == LastWithId(id, channels[..n]).value;
          assert LastHolder(id, channels, i);
        }
      }
    }
  }

  /** A managed channel is refused for two channels with its tag first, then for a binding to another channel. */
  lemma LocateExactly(tag: string, bound: Option<nat>, channels: seq<Channel>)
    ensures Locate(tag, bound, channels) == Failure(ResourceConflict) <==> Doubled(tag, channels)
    ensures Locate(tag, bound, channels) == Failure(BindingMismatch) <==>
            !Doubled(tag, channels) && BoundElsewhere(tag, bound, channels)
    ensures !Doubled(tag, channels) && !BoundElsewhere(tag, bound, channels) ==>
              match Locate(tag, bound, channels)
              case Success(None) => forall c <- channels :: c.tag != tag
              case Success(Some(c)) => c in channels && c.tag == tag
              case Failure(_) => false
  {
    FilteredOnce(HasTag(tag), channels);
    FilterMembers(HasTag(tag), channels);
    LocateOwned(tag, bound, channels);
    if bound.Some? {
      LastHolderFound(bound.value, channels);
      forall i, j | LastHolder(bound.value, channels, i) && LastHolder(bound.value, channels, j) ensures i == j { }
    }
    var matching := Tagged(tag, channels);
    if |matching| == 1 { assert matching[0] in matching; }
    if matching == [] {
      forall c | c in channels ensures c.tag != tag { assert c !in matching; }
    }
  }

  method LocateManagedChannel(tag: string, bound: Option<nat>, channels: seq<Channel>)
    returns (r: Result<Option<Channel>, Failure>)
    ensures r == Locate(tag, bound, channels)
  {
    var matching, byId: Option<Channel>, i := [], None, 0;
    while i < |channels|
      invariant i <= |channels| && matching == Tagged(tag, channels[..i])
      invariant byId == if bound.Some? then LastWithId(bound.value, channels[..i]) else None
    {
      assert channels[..i + 1][..i] == channels[..i];
      if channels[i].tag == tag { matching := matching + [channels[i]]; }
      if bound.Some? && channels[i].id == bound.value { byId := Some(channels[i]); }
      i := i + 1;
    }
    assert channels[..i] == channels;
    if |matching| > 1 { return Failure(ResourceConflict); }
    if byId.Some? { return if byId.value.tag != tag then Failure(BindingMismatch) else Success(byId); }
    r := Success(if |matching| == 1 then Some(matching[0]) else None);
  }

  // ---------- merging the plan into the group settings ----------

  predicate Positive(r: Ratio) { r.Number? && r.value > 0.0 }

  predicate Acceptable(r: Ratio) { r.Number? && r.value >= 0.0 }

  predicate AllAcceptable(ratios: map<string, Ratio>) { forall k <- ratios :: Acceptable(ratios[k]) }

  function MergeRatio(current: map<string, Ratio>, g: Group): Result<(map<string, Ratio>, bool), Failure> {
    if !Positive(g.ratio) then Failure(InvalidSaleRatio)
    else if !AllAcceptable(current) then Failure(InvalidGroupRatio)
    else Success((current[g.key := g.ratio], g.key !in current || current[g.key] != g.ratio))
  }

  function MergeRatios(current: map<string, Ratio>, groups: seq<Group>): Result<(map<string, Ratio>, bool), Failure> {
    if groups == [] then Success((current, false))
    else
      var before := MergeRatios(current, groups[..|groups| - 1]);
      if before.Failure? then before
      else
        var next := MergeRatio(before.value.0, groups[|groups| - 1]);
        if next.Failure? then next else Success((next.value.0, before.value.1 || next.value.1))
  }

  /** An absent entry reads as the empty name. */
  function MergeVisible(current: map<string, string>, g: Group): (map<string, string>, bool) {
    if !g.visible then (current - {g.key}, g.key in current)
    else (current[g.key := g.name], (if g.key in current then current[g.key] else "") != g.name)
  }

  function MergeVisibility(current: map<string, string>, groups: seq<Group>): (map<string, string>, bool) {
    if groups == [] then (current, false)
    else
      var before := MergeVisibility(current, groups[..|groups| - 1]);
      var next := MergeVisible(before.0, groups[|groups| - 1]);
      (next.0, before.1 || next.1)
  }

  function KeysOf(groups: seq<Group>): set<string> { set g | g in groups :: g.key }

  ghost predicate KeysDistinct(groups: seq<Group>) {
    forall i, j :: 0 <= i < j < |groups| ==> groups[i].key != groups[j].key
  }

  predicate RatioSet(ratios: map<string, Ratio>, g: Group) { g.key in ratios && ratios[g.key] == g.ratio }

  predicate RatiosSet(ratios: map<string, Ratio>, groups: seq<Group>) {
    forall i :: 0 <= i < |groups| ==> RatioSet(ratios, groups[i])
  }

  predicate VisibleSet(visible: map<string, string>, g: Group) {
    (g.key in visible <==> g.visible) && (g.visible ==> g.key in visible && visible[g.key] == g.name)
  }

  predicate VisibilitySet(visible: map<string, string>, groups: seq<Group>) {
    forall i :: 0 <= i < |groups| ==> VisibleSet(visible, groups[i])
  }

  lemma KeysSnoc(groups: seq<Group>, g: Group)
    ensures KeysOf(groups + [g]) == KeysOf(groups) + {g.key}
  {
  }

  lemma DistinctSnoc(groups: seq<Group>)
    requires groups != [] && KeysDistinct(groups)
    ensures KeysDistinct(groups[..|groups| - 1]) && groups[|groups| - 1].key !in KeysOf(groups[..|groups| - 1])
    ensures groups == groups[..|groups| - 1] + [groups[|groups| - 1]]
  {
  }

  /** Every planned ratio is set, all others are kept, and a change is reported exactly when there is one. */
  ghost predicate RatiosMerged(current: map<string, Ratio>, groups: seq<Group>, m: map<string, Ratio>, changed: bool) {
    && RatiosSet(m, groups)
    && m.Keys == current.Keys + KeysOf(groups)
    && (forall k <- current :: k !in KeysOf(groups) ==> m[k] == current[k])
    && (changed <==> !RatiosSet(current, groups))
  }

  lemma RatiosMergedStep(
    current: map<string, Ratio>, groups: seq<Group>, m: map<string, Ratio>, changed: bool, g: Group)
    requires RatiosMerged(current, groups, m, changed) && g.key !in KeysOf(groups)
    ensures RatiosMerged(current, groups + [g], m[g.key := g.ratio], changed || g.key !in m || m[g.key] != g.ratio)
  {
    var all := groups + [g];
    KeysSnoc(groups, g);
    forall i | 0 <= i < |all| ensures RatioSet(m[g.key := g.ratio], all[i]) {
      if i < |groups| {
        assert all[i] == groups[i] && RatioSet(m, groups[i]) && groups[i].key in KeysOf(groups);
      }
    }
    assert all[|groups|] == g;
    assert RatioSet(current, g) <==> RatioSet(m, g);
    if RatiosSet(current, groups) && RatioSet(current, g) {
      forall i | 0 <= i < |all| ensures RatioSet(current, all[i]) { }
    }
    if RatiosSet(current, all) {
      forall i | 0 <= i < |groups| ensures RatioSet(current, groups[i]) { assert all[i] == groups[i]; }
    }
  }

  predicate AllPositive(groups: seq<Group>) { forall i :: 0 <= i < |groups| ==> Positive(groups[i].ratio) }

  lemma MergedAcceptable(current: map<string, Ratio>, groups: seq<Group>, m: map<string, Ratio>, changed: bool)
    requires RatiosMerged(current, groups, m, changed) && AllAcceptable(current) && AllPositive(groups)
    ensures AllAcceptable(m)
  {
    forall k | k in m ensures Acceptable(m[k]) {
      if k in KeysOf(groups) {
        var i :| 0 <= i < |groups| && groups[i].key == k;
        assert RatioSet(m, groups[i]);
      }
    }
  }

  lemma {:induction false} MergeRatiosExact(current: map<string, Ratio>, groups: seq<Group>)
    requires KeysDistinct(groups)
    ensures MergeRatios(current, groups).Success? <==>
            (groups == [] || AllAcceptable(current)) && AllPositive(groups)
    ensures MergeRatios(current, groups).Success? ==>
              RatiosMerged(current, groups, MergeRatios(current, groups).value.0, MergeRatios(current, groups).value.1)
  {
    if groups == [] {
      assert KeysOf(groups) == {};
    } else {
      var n := |groups| - 1;
      var before := MergeRatios(current, groups[..n]);
      DistinctSnoc(groups);
      MergeRatiosExact(current, groups[..n]);
      assert AllPositive(groups) <==> AllPositive(groups[..n]) && Positive(groups[n].ratio);
      if before.Success? {
        RatiosMergedStep(current, groups[..n], before.value.0, before.value.1, groups[n]);
        if AllAcceptable(current) { MergedAcceptable(current, groups[..n], before.value.0, before.value.1); }
        assert groups[..n] == [] ==> before.value.0 == current;
      }
    }
  }

  /** The merge sees a difference; a missing entry with an empty name is not one. */
  predicate VisibleDiffers(current: map<string, string>, g: Group) {
    if g.visible then (if g.key in current then current[g.key] else "") != g.name else g.key in current
  }

  ghost predicate SomeDiffers(current: map<string, string>, groups: seq<Group>) {
    exists i :: 0 <= i < |groups| && VisibleDiffers(current, groups[i])
  }

  /** Every planned entry is set, all others are kept, and seen differences are reported. */
  ghost predicate VisibilityMerged(
    current: map<string, string>, groups: seq<Group>, m: map<string, string>, changed: bool)
  {
    && VisibilitySet(m, groups)
    && (forall k :: k !in KeysOf(groups) ==> (k in m <==> k in current))
    && (forall k <- current :: k !in KeysOf(groups) ==> m[k] == current[k])
    && (changed <==> SomeDiffers(current, groups))
  }

  lemma VisibilityMergedStep(
    current: map<string, string>, groups: seq<Group>, m: map<string, string>, changed: bool, g: Group)
    requires VisibilityMerged(current, groups, m, changed) && g.key !in KeysOf(groups)
    ensures VisibilityMerged(current, groups + [g], MergeVisible(m, g).0, changed || MergeVisible(m, g).1)
  {
    var all := groups + [g];
    var next := MergeVisible(m, g);
    KeysSnoc(groups, g);
    forall i | 0 <= i < |all| ensures VisibleSet(next.0, all[i]) {
      if i < |groups| {
        assert all[i] == groups[i] && VisibleSet(m, groups[i]) && groups[i].key in KeysOf(groups);
      }
    }
    assert all[|groups|] == g;
    assert next.1 <==> VisibleDiffers(current, g);
    if SomeDiffers(current, groups) {
      var i :| 0 <= i < |groups| && VisibleDiffers(current, groups[i]);
      assert VisibleDiffers(current, all[i]);
    }
  }

  lemma {:induction false} MergeVisibilityExact(current: map<string, string>, groups: seq<Group>)
    requires KeysDistinct(groups)
    ensures VisibilityMerged(current, groups, MergeVisibility(current, groups).0, MergeVisibility(current, groups).1)
  {
    if groups == [] {
      assert KeysOf(groups) == {};
    } else {
      var n := |groups| - 1;
      DistinctSnoc(groups);
      MergeVisibilityExact(current, groups[..n]);
      var before := MergeVisibility(current, groups[..n]);
      VisibilityMergedStep(current, groups[..n], before.0, before.1, groups[n]);
    }
  }

  /** A visible group without a name whose entry is missing. */
  predicate Unnoticed(current: map<string, string>, g: Group) { g.visible && g.name == "" && g.key !in current }

  /** No change is reported exactly when every entry is as planned or missing without a name. */
  lemma NothingDiffers(current: map<string, string>, groups: seq<Group>)
    ensures !SomeDiffers(current, groups) <==>
            forall i :: 0 <= i < |groups| ==> VisibleSet(current, groups[i]) || Unnoticed(current, groups[i])
  {
    forall g: Group ensures !VisibleDiffers(current, g) <==> VisibleSet(current, g) || Unnoticed(current, g) { }
    if !SomeDiffers(current, groups) {
      forall i | 0 <= i < |groups| ensures VisibleSet(current, groups[i]) || Unnoticed(current, groups[i]) {
        assert !VisibleDiffers(current, groups[i]);
      }
    }
  }

  /** Snapshots name every group, and then a change is reported exactly when an entry is not as planned. */
  lemma NamedNothingDiffers(current: map<string, string>, groups: seq<Group>)
    requires forall i :: 0 <= i < |groups| ==> !groups[i].visible || groups[i].name != ""
    ensures !SomeDiffers(current, groups) <==> VisibilitySet(current, groups)
  {
    NothingDiffers(current, groups);
  }

  /** Without its name a missing entry stays missing. */
  lemma UnnamedStaysMissing(g: Group)
    requires g.visible && g.name == ""
    ensures !SomeDiffers(map[], [g]) && !VisibilitySet(map[], [g])
  {
    NothingDiffers(map[], [g]);
    assert !VisibleSet(map[], [g][0]);
  }

  method MergePlanRatios(current: map<string, Ratio>, groups: seq<Group>)
    returns (r: Result<(map<string, Ratio>, bool), Failure>)
    ensures r == MergeRatios(current, groups)
  {
    var ratios, changed, i := current, false, 0;
    while i < |groups|
      invariant i <= |groups| && MergeRatios(current, groups[..i]) == Success((ratios, changed))
    {
      assert groups[..i + 1][..i] == groups[..i];
      var next := MergeRatio(ratios, groups[i]);
      if next.Failure? {
        MergeRefused(current, groups, i + 1);
        return Failure(next.error);
      }
      ratios, changed := next.value.0, changed || next.value.1;
      i := i + 1;
    }
    assert groups[..i] == groups;
    r := Success((ratios, changed));
  }

  lemma {:induction false} MergeRefused(current: map<string, Ratio>, groups: seq<Group>, n: nat)
    requires n <= |groups| && MergeRatios(current, groups[..n]).Failure?
    ensures MergeRatios(current, groups) == MergeRatios(current, groups[..n])
    decreases |groups|
  {
    if n < |groups| {
      assert groups[..|groups| - 1][..n] == groups[..n];
      MergeRefused(current, groups[..|groups| - 1], n);
    } else {
      assert groups[..n] == groups;
    }
  }

  method MergePlanVisibility(current: map<string, string>, groups: seq<Group>)
    returns (visible: map<string, string>, changed: bool)
    ensures (visible, changed) == MergeVisibility(current, groups)
  {
    visible, changed := current, false;
    var i := 0;
    while i < |groups|
      invariant i <= |groups| && MergeVisibility(current, groups[..i]) == (visible, changed)
    {
      assert groups[..i + 1][..i] == groups[..i];
      var next := MergeVisible(visible, groups[i]);
      visible, changed := next.0, changed || next.1;
      i := i + 1;
    }
    assert groups[..i] == groups;
  }

  // ---------- verification ----------

  predicate SameNumber(a: Ratio, b: Ratio) { a.Number? && b.Number? && a.value == b.value }

  predicate RatioHolds(site: Site, g: Group) { g.key in site.ratios && SameNumber(g.ratio, site.ratios[g.key]) }

  ghost predicate RatiosHold(site: Site, groups: seq<Group>) {
    forall i :: 0 <= i < |groups| ==> RatioHolds(site, groups[i])
  }

  lemma SetRatiosHold(site: Site, groups: seq<Group>)
    requires RatiosSet(site.ratios, groups) && AllPositive(groups)
    ensures RatiosHold(site, groups)
  {
    forall i | 0 <= i < |groups| ensures RatioHolds(site, groups[i]) {
      assert RatioSet(site.ratios, groups[i]) && Positive(groups[i].ratio);
    }
  }

  method VerifyGroups(groups: seq<Group>, site: Site, visibility: bool) returns (failure: Option<Failure>)
    ensures failure.None? <==> RatiosHold(site, groups) && (visibility ==> VisibilitySet(site.visible, groups))
    ensures failure.Some? ==> failure.value == RatioDrift || (visibility && failure.value == VisibilityDrift)
  {
    var i := 0;
    while i < |groups|
      invariant i <= |groups|
      invariant forall k :: 0 <= k < i ==> RatioHolds(site, groups[k]) && (visibility ==> VisibleSet(site.visible, groups[k]))
    {
      var g := groups[i];
      if g.key !in site.ratios || !SameNumber(g.ratio, site.ratios[g.key]) { return Some(RatioDrift); }
      if visibility {
        var shown := g.key in site.visible;
        if g.visible != shown || (shown && site.visible[g.key] != g.name) { return Some(VisibilityDrift); }
      }
      i := i + 1;
    }
    failure := None;
  }

  /** Settings outside the plan are as before; an entry with an empty key is not looked at. */
  predicate Untouched(groups: seq<Group>, before: Site, after: Site) {
    && (forall k <- before.ratios :: k != "" && k !in KeysOf(groups) ==>
          k in after.ratios && SameNumber(before.ratios[k], after.ratios[k]))
    && forall k <- before.visible :: k != "" && k !in KeysOf(groups) ==>
         k in after.visible && after.visible[k] == before.visible[k]
  }

  /** The channel of a resource is as planned: enabled and equal to it, or off. */
  predicate ChannelHolds(codec: Codec, r: Resource, site: Site) {
    var found := Locate(r.desired.tag, r.binding.external, site.channels);
    found.Success? &&
    if r.desired.enabled then
      found.value.Some? && found.value.value.status == Enabled
      && codec.matches(r.desired, found.value.value.tag, found.value.value.config)
    else
      found.value.None? || found.value.value.status == ManuallyDisabled
  }

  ghost predicate ChannelsHold(codec: Codec, resources: seq<Resource>, site: Site) {
    forall i :: 0 <= i < |resources| ==> ChannelHolds(codec, resources[i], site)
  }

  /** The site is exactly as planned, and unchanged elsewhere since `before`. */
  ghost predicate Exact(codec: Codec, groups: seq<Group>, resources: seq<Resource>, before: Site, after: Site) {
    && RatiosHold(after, groups) && VisibilitySet(after.visible, groups)
    && Untouched(groups, before, after)
    && ChannelsHold(codec, resources, after)
  }

  /** Both texts are numbers, and equal as such. */
  predicate EqualRatios(a: Ratio, b: Ratio) { a.Number? && b == Number(a.value) }

  /** The wanted channel is in service and as planned, or the unwanted one off or gone. */
  ghost predicate ChannelAsPlanned(codec: Codec, r: Resource, channels: seq<Channel>) {
    && !Doubled(r.desired.tag, channels) && !BoundElsewhere(r.desired.tag, r.binding.external, channels)
    && if r.desired.enabled then
         exists c <- channels :: c.tag == r.desired.tag && c.status == Enabled && codec.matches(r.desired, c.tag, c.config)
       else
         forall c <- channels :: c.tag == r.desired.tag ==> c.status == ManuallyDisabled
  }

  /** Every planned group has its ratio and its entry, and everything outside the plan is as before. */
  ghost predicate SettingsAsPlanned(groups: seq<Group>, before: Site, after: Site) {
    && (forall g <- groups :: g.key in after.ratios && EqualRatios(g.ratio, after.ratios[g.key]))
    && (forall g <- groups :: if g.visible then g.key in after.visible && after.visible[g.key] == g.name else g.key !in after.visible)
    && (forall k <- before.ratios :: k != "" && (forall g <- groups :: g.key != k) ==>
          k in after.ratios && EqualRatios(before.ratios[k], after.ratios[k]))
    && (forall k <- before.visible :: k != "" && (forall g <- groups :: g.key != k) ==>
          k in after.visible && after.visible[k] == before.visible[k])
  }

  lemma SettingsExactly(groups: seq<Group>, before: Site, after: Site)
    ensures RatiosHold(after, groups) && VisibilitySet(after.visible, groups) && Untouched(groups, before, after)
            <==> SettingsAsPlanned(groups, before, after)
  {
    forall i | 0 <= i < |groups| ensures groups[i] in groups { }
    forall k ensures k in KeysOf(groups) <==> exists g <- groups :: g.key == k { }
    if SettingsAsPlanned(groups, before, after) {
      forall i | 0 <= i < |groups| ensures RatioHolds(after, groups[i]) && VisibleSet(after.visible, groups[i]) {
        assert groups[i] in groups;
      }
    }
    if RatiosHold(after, groups) && VisibilitySet(after.visible, groups) {
      forall g | g in groups ensures RatioHolds(after, g) && VisibleSet(after.visible, g) {
        var i :| 0 <= i < |groups| && groups[i] == g;
        assert RatioHolds(after, groups[i]) && VisibleSet(after.visible, groups[i]);
      }
    }
  }

  lemma ChannelExactly(codec: Codec, r: Resource, site: Site)
    ensures ChannelHolds(codec, r, site) <==> ChannelAsPlanned(codec, r, site.channels)
  {
    var tag, channels := r.desired.tag, site.channels;
    LocateExactly(tag, r.binding.external, channels);
    if !Doubled(tag, channels) {
      forall c, d | c in channels && d in channels && c.tag == tag && d.tag == tag ensures c == d {
        var i :| 0 <= i < |channels| && channels[i] == c;
        var j :| 0 <= j < |channels| && channels[j] == d;
        assert i == j;
      }
    }
  }

  /** Verification is about exactly that. */
  lemma ExactMeans(codec: Codec, groups: seq<Group>, resources: seq<Resource>, before: Site, after: Site)
    ensures Exact(codec, groups, resources, before, after) <==>
            && SettingsAsPlanned(groups, before, after)
            && forall r <- resources :: ChannelAsPlanned(codec, r, after.channels)
  {
    SettingsExactly(groups, before, after);
    forall i | 0 <= i < |resources|
      ensures resources[i] in resources
      ensures ChannelHolds(codec, resources[i], after) <==> ChannelAsPlanned(codec, resources[i], after.channels)
    {
      ChannelExactly(codec, resources[i], after);
    }
  }

  /** Ratios are merged exactly when those of the plan are positive numbers and those of the site non-negative ones. */
  lemma MergeAccepts(current: map<string, Ratio>, groups: seq<Group>)
    requires KeysDistinct(groups)
    ensures MergeRatios(current, groups).Success? <==>
            && (groups == [] || forall k <- current :: current[k].Number? && current[k].value >= 0.0)
            && forall g <- groups :: g.ratio.Number? && g.ratio.value > 0.0
  {
    MergeRatiosExact(current, groups);
    forall i | 0 <= i < |groups| ensures groups[i] in groups { }
  }

  method RemoveKeys<V>(entries: map<string, V>, groups: seq<Group>) returns (rest: map<string, V>)
    ensures rest == entries - KeysOf(groups)
  {
    rest := entries;
    var i := 0;
    while i < |groups|
      invariant i <= |groups| && rest == entries - KeysOf(groups[..i])
    {
      KeysSnoc(groups[..i], groups[i]);
      assert groups[..i + 1] == groups[..i] + [groups[i]];
      rest := rest - {groups[i].key};
      i := i + 1;
    }
    assert groups[..i] == groups;
  }

  method VerifyUnmanaged(groups: seq<Group>, before: Site, after: Site) returns (failure: Option<Failure>)
    ensures failure.None? <==> Untouched(groups, before, after)
  {
    var ratios := RemoveKeys(before.ratios, groups);
    var visible := RemoveKeys(before.visible, groups);
    if exists k <- ratios :: k != "" && !(k in after.ratios && SameNumber(ratios[k], after.ratios[k])) {
      return Some(UnmanagedRatio);
    }
    if exists k <- visible :: k != "" && !(k in after.visible && after.visible[k] == visible[k]) {
      return Some(UnmanagedVisibility);
    }
    failure := None;
  }

  method VerifyChannel(codec: Codec, r: Resource, site: Site) returns (failure: Option<Failure>)
    ensures failure.None? <==> ChannelHolds(codec, r, site)
  {
    var found := LocateManagedChannel(r.desired.tag, r.binding.external, site.channels);
    if found.Failure? { return Some(found.error); }
    var c := found.value;
    if !r.desired.enabled {
      return if c.Some? && c.value.status != ManuallyDisabled then Some(StillActive) else None;
    }
    failure := if c.None? || c.value.status != Enabled || !codec.matches(r.desired, c.value.tag, c.value.config) then Some(ChannelDrift) else None;
  }

  /** Verification passes exactly on sites that are as planned and unchanged elsewhere. */
  method VerifySite(codec: Codec, groups: seq<Group>, resources: seq<Resource>, before: Site, after: Site)
    returns (failure: Option<Failure>)
    ensures failure.None? <==> Exact(codec, groups, resources, before, after)
  {
    failure := VerifyGroups(groups, after, true);
    if failure.Some? { return; }
    failure := VerifyUnmanaged(groups, before, after);
    if failure.Some? { return; }
    var i := 0;
    while i < |resources|
      invariant i <= |resources| && failure.None?
      invariant forall k :: 0 <= k < i ==> ChannelHolds(codec, resources[k], after)
    {
      failure := VerifyChannel(codec, resources[i], after);
      if failure.Some? { return; }
      i := i + 1;
    }
  }
}
