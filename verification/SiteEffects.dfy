/**
 What a write about one managed channel leaves alone: every channel under another tag,
 and which tag each existing channel identifier belongs to.
 */
module SiteEffects {
  import opened Wrappers
  import opened Sequences
  import opened ChannelCodec
  import opened SiteState
  import opened SiteGateway

  /** Identifiers are unique and below the next one to be given out. */
  ghost predicate Fit(channels: seq<Channel>, next: nat) {
    && (forall i :: 0 <= i < |channels| ==> channels[i].id < next)
    && forall i, j :: 0 <= i < j < |channels| ==> channels[i].id != channels[j].id
  }

  /** Whatever carries the identifier carries the tag. */
  ghost predicate BoundTo(id: nat, tag: string, channels: seq<Channel>) {
    forall i :: 0 <= i < |channels| && channels[i].id == id ==> channels[i].tag == tag
  }

  ghost predicate OthersSame(tag: string, a: seq<Channel>, b: seq<Channel>) {
    forall t :: t != tag ==> Tagged(t, b) == Tagged(t, a)
  }

  ghost predicate BindingsSame(tag: string, a: seq<Channel>, n: nat, b: seq<Channel>) {
    forall id: nat, t :: id < n && BoundTo(id, t, a) ==> BoundTo(id, t, b)
  }

  /** A change that concerns only the channel with one tag. */
  ghost predicate Touches(tag: string, a: seq<Channel>, n: nat, b: seq<Channel>, m: nat) {
    Fit(b, m) && n <= m && OthersSame(tag, a, b) && BindingsSame(tag, a, n, b)
  }

  lemma TouchesTransitive(
    tag: string, a: seq<Channel>, n: nat, b: seq<Channel>, m: nat, c: seq<Channel>, k: nat)
    requires Touches(tag, a, n, b, m) && Touches(tag, b, m, c, k)
    ensures Touches(tag, a, n, c, k)
  {
  }

  lemma TouchesNothing(tag: string, a: seq<Channel>, n: nat)
    requires Fit(a, n)
    ensures Touches(tag, a, n, a, n)
  {
  }

  /** Changing elements in place without changing what the filter looks at. */
  lemma {:induction false} FilterMapped<T>(p: T -> bool, f: T -> T, s: seq<T>)
    requires forall i :: 0 <= i < |s| ==> p(f(s[i])) == p(s[i])
    ensures Filter(p, Map(f, s)) == Map(f, Filter(p, s))
  {
    if s != [] {
      var n := |s| - 1;
      FilterMapped(p, f, s[..n]);
      assert Map(f, s)[..n] == Map(f, s[..n]);
      if p(s[n]) { MapConcat(f, Filter(p, s[..n]), [s[n]]); }
    }
  }

  lemma MapNothing<T>(f: T -> T, s: seq<T>)
    requires forall i :: 0 <= i < |s| ==> f(s[i]) == s[i]
    ensures Map(f, s) == s
  {
  }

  lemma SameId(channels: seq<Channel>, n: nat, a: Channel, b: Channel)
    requires Fit(channels, n) && a in channels && b in channels && a.id == b.id
    ensures a == b
  {
  }

  lemma OtherId(channels: seq<Channel>, n: nat, a: Channel, b: Channel)
    requires Fit(channels, n) && a in channels && b in channels && a.tag != b.tag
    ensures a.id != b.id
  {
  }

  /** A change in place at the channel with the tag. */
  ghost predicate ChangesOnly(f: Channel -> Channel, id: nat, tag: string, channels: seq<Channel>) {
    forall i :: 0 <= i < |channels| ==>
      && f(channels[i]).id == channels[i].id
      && f(channels[i]).tag == channels[i].tag
      && (channels[i].id != id ==> f(channels[i]) == channels[i])
  }

  lemma ChangeKeepsIds(f: Channel -> Channel, id: nat, tag: string, channels: seq<Channel>, n: nat)
    requires Fit(channels, n) && ChangesOnly(f, id, tag, channels)
    ensures Fit(Map(f, channels), n) && BindingsSame(tag, channels, n, Map(f, channels))
  {
    var after := Map(f, channels);
    forall i | 0 <= i < |after| ensures after[i].id == channels[i].id && after[i].tag == channels[i].tag { }
    forall b: nat, t | b < n && BoundTo(b, t, channels) ensures BoundTo(b, t, after) { }
  }

  lemma ChangeTouches(f: Channel -> Channel, c: Channel, channels: seq<Channel>, n: nat)
    requires Fit(channels, n) && Tagged(c.tag, channels) == [c] && ChangesOnly(f, c.id, c.tag, channels)
    ensures Touches(c.tag, channels, n, Map(f, channels), n)
    ensures Tagged(c.tag, Map(f, channels)) == [f(c)]
  {
    FilterMembers(HasTag(c.tag), channels);
    assert c in Tagged(c.tag, channels);
    ChangeKeepsIds(f, c.id, c.tag, channels, n);
    forall t | t != c.tag ensures Tagged(t, Map(f, channels)) == Tagged(t, channels) {
      OtherTagged(f, c, channels, n, t);
    }
    assert OthersSame(c.tag, channels, Map(f, channels));
    OwnTagged(f, c, channels);
  }

  lemma OwnTagged(f: Channel -> Channel, c: Channel, channels: seq<Channel>)
    requires Tagged(c.tag, channels) == [c] && ChangesOnly(f, c.id, c.tag, channels)
    ensures Tagged(c.tag, Map(f, channels)) == [f(c)]
  {
    FilterMapped(HasTag(c.tag), f, channels);
    assert Map(f, [c]) == [f(c)];
  }

  lemma OtherTagged(f: Channel -> Channel, c: Channel, channels: seq<Channel>, n: nat, t: string)
    requires Fit(channels, n) && c in channels && t != c.tag && ChangesOnly(f, c.id, c.tag, channels)
    ensures Tagged(t, Map(f, channels)) == Tagged(t, channels)
  {
    FilterMapped(HasTag(t), f, channels);
    FilterMembers(HasTag(t), channels);
    var matching := Tagged(t, channels);
    forall i | 0 <= i < |matching| ensures f(matching[i]) == matching[i] {
      assert matching[i] in matching;
      OtherId(channels, n, matching[i], c);
    }
    MapNothing(f, matching);
  }

  lemma StatusTouches(c: Channel, status: Status, channels: seq<Channel>, n: nat)
    requires Fit(channels, n) && Tagged(c.tag, channels) == [c]
    ensures Touches(c.tag, channels, n, Map(SetStatus(c.id, status), channels), n)
    ensures Tagged(c.tag, Map(SetStatus(c.id, status), channels)) == [c.(status := status)]
  {
    ChangeTouches(SetStatus(c.id, status), c, channels, n);
  }

  lemma ConfigTouches(c: Channel, config: Config, channels: seq<Channel>, n: nat)
    requires Fit(channels, n) && Tagged(c.tag, channels) == [c]
    ensures Touches(c.tag, channels, n, Map(SetConfig(c.id, c.tag, config), channels), n)
    ensures Tagged(c.tag, Map(SetConfig(c.id, c.tag, config), channels)) == [c.(config := config)]
  {
    var f := SetConfig(c.id, c.tag, config);
    FilterMembers(HasTag(c.tag), channels);
    assert c in Tagged(c.tag, channels);
    forall i | 0 <= i < |channels| && channels[i].id == c.id ensures channels[i] == c {
      SameId(channels, n, channels[i], c);
    }
    ChangeTouches(f, c, channels, n);
  }

  lemma CreateTouches(c: Channel, channels: seq<Channel>)
    requires Fit(channels, c.id) && Tagged(c.tag, channels) == []
    ensures Touches(c.tag, channels, c.id, channels + [c], c.id + 1)
    ensures Tagged(c.tag, channels + [c]) == [c]
  {
    forall t ensures Tagged(t, channels + [c]) == Tagged(t, channels) + (if t == c.tag then [c] else []) {
      FilterSnoc(HasTag(t), channels, c);
    }
    assert Fit(channels + [c], c.id + 1);
  }

  lemma OwnerBound(c: Channel, channels: seq<Channel>, n: nat)
    requires Fit(channels, n) && Tagged(c.tag, channels) == [c]
    ensures Owned(c.tag, Some(c.id), channels) && BoundTo(c.id, c.tag, channels) && c.id < n
  {
    FilterMembers(HasTag(c.tag), channels);
    assert c in Tagged(c.tag, channels);
    forall i | 0 <= i < |channels| && channels[i].id == c.id ensures channels[i] == c {
      SameId(channels, n, channels[i], c);
    }
  }

  /** With unique identifiers, ownership is clear when the tag is unique and the binding agrees. */
  lemma OwnedWhenFit(tag: string, bound: Option<nat>, channels: seq<Channel>)
    requires |Tagged(tag, channels)| <= 1 && (bound.Some? ==> BoundTo(bound.value, tag, channels))
    ensures Owned(tag, bound, channels)
  {
  }
}
