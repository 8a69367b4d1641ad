/** The batch the collector commits for one window: converted requests plus the logs set aside earlier. */
module CollectedWindow {
  import opened Wrappers
  import opened Sequences
  import opened Cursors
  import opened Measurement
  import opened ErrorClasses
  import opened Conversion
  import opened Batches
  import opened PerRequest
  import opened RemoteLogs

  function Positions(aside: seq<(Cursor, Reason)>): (s: seq<Cursor>)
    ensures |s| == |aside|
  {
    seq(|aside|, i requires 0 <= i < |aside| => aside[i].0)
  }

  function AsideFacts(ctx: Context, aside: seq<(Cursor, Reason)>): (s: seq<QuarantineFact>)
    ensures |s| == |aside|
    ensures forall i :: 0 <= i < |s| ==>
              s[i].cursor == aside[i].0 && s[i].reason == aside[i].1 && s[i].source == ctx.source && s[i].site == ctx.site
  {
    seq(|aside|, i requires 0 <= i < |aside| => Quarantine(ctx, aside[i].0, aside[i].1))
  }

  function Furthest(next: Cursor, aside: seq<(Cursor, Reason)>): Cursor {
    if aside == [] then next else Later(Furthest(next, aside[..|aside| - 1]), aside[|aside| - 1].0)
  }

  /** It is one of the positions, and none is past it; the zero cursor is before all others. */
  predicate FurthestSays(next: Cursor, aside: seq<(Cursor, Reason)>, f: Cursor) {
    && (f == next || exists k :: 0 <= k < |aside| && aside[k].0 == f)
    && ((forall k :: 0 <= k < |aside| ==> !aside[k].0.IsZero()) ==>
          && (!next.IsZero() ==> next.Compare(f) <= 0 && !f.IsZero())
          && forall k :: 0 <= k < |aside| ==> aside[k].0.Compare(f) <= 0 && !f.IsZero())
  }

  lemma {:induction false} FurthestExactly(next: Cursor, aside: seq<(Cursor, Reason)>)
    ensures FurthestSays(next, aside, Furthest(next, aside))
  {
    if aside == [] {
      CompareLaws(next, next);
    } else {
      var n := |aside| - 1;
      var before, last := Furthest(next, aside[..n]), aside[n].0;
      FurthestExactly(next, aside[..n]);
      CompareLaws(before, last);
      CompareLaws(last, last);
      if exists k :: 0 <= k < n && aside[..n][k].0 == before {
        var k :| 0 <= k < n && aside[..n][k].0 == before;
        assert aside[k].0 == before;
      }
      if before.Compare(last) < 0 {
        if next.Compare(before) <= 0 { CursorLeTransitive(next, before, last); }
        forall k | 0 <= k < n && aside[..n][k].0.Compare(before) <= 0 ensures aside[k].0.Compare(last) <= 0 {
          assert aside[k] == aside[..n][k];
          CursorLeTransitive(aside[k].0, before, last);
        }
      }
    }
  }

  function WithAside(ctx: Context, b: Batch, aside: seq<(Cursor, Reason)>): Batch {
    b.(quarantines := b.quarantines + AsideFacts(ctx, aside), next := Furthest(b.next, aside))
  }

  ghost function WindowBatch(ctx: Context, from: Cursor, logs: seq<RemoteLog>): Option<Batch>
    requires AllLocatable(logs)
  {
    var b := ConvertByRequest(ctx, from, Inputs(logs));
    if b.Some? && ValidBatch(WithAside(ctx, b.value, SetAside(logs)))
    then Some(WithAside(ctx, b.value, SetAside(logs))) else None
  }

  /** Sound positions and reasons of the logs set aside. */
  predicate SoundAside(aside: seq<(Cursor, Reason)>) {
    forall i :: 0 <= i < |aside| ==> aside[i].0.Valid() && aside[i].1 != NoReason
  }

  lemma {:induction false} FurthestFacts(from: Cursor, next: Cursor, aside: seq<(Cursor, Reason)>)
    requires next.IsZero() || next.Valid()
    requires !from.IsZero() ==> !next.IsZero() && CursorLe(from, next)
    requires SoundAside(aside)
    ensures var n := Furthest(next, aside);
            (n.IsZero() || n.Valid()) && (!from.IsZero() ==> !n.IsZero() && CursorLe(from, n))
  {
    if aside != [] {
      var k := |aside| - 1;
      FurthestFacts(from, next, aside[..k]);
      var m := Furthest(next, aside[..k]);
      CompareLaws(m, aside[k].0);
      if !from.IsZero() && m.Compare(aside[k].0) < 0 { CursorLeTransitive(from, m, aside[k].0); }
    }
  }

  ghost predicate DistinctFrom(q: seq<QuarantineFact>, ctx: Context) {
    forall i :: 0 <= i < |q| ==> q[i].sourceHash == QuarantineDigest(ctx.source, ctx.site, q[i].cursor)
  }

  function CursorOfFact(q: QuarantineFact): Cursor { q.cursor }

  lemma HashesAreCursors(ctx: Context, q: seq<QuarantineFact>)
    requires DistinctFrom(q, ctx)
    ensures QuarantinesDistinct(q) <==> NoDup(Map(CursorOfFact, q))
  {
    var c := Map(CursorOfFact, q);
    if NoDup(c) {
      forall i, j | 0 <= i < j < |q| ensures q[i].sourceHash != q[j].sourceHash { assert c[i] != c[j]; }
    }
    if QuarantinesDistinct(q) {
      forall i, j | 0 <= i < j < |c| ensures c[i] != c[j] { assert q[i].sourceHash != q[j].sourceHash; }
    }
  }

  /** Adding sound set-aside logs to a valid batch keeps it valid exactly when no position repeats. */
  lemma WithAsideValid(ctx: Context, b: Batch, aside: seq<(Cursor, Reason)>)
    requires ValidBatch(b) && b.source == ctx.source && b.site == ctx.site
    requires ctx.source != DirectProbe && SoundAside(aside) && DistinctFrom(b.quarantines, ctx)
    requires !b.from.IsZero() ==> !b.next.IsZero()
    ensures ValidBatch(WithAside(ctx, b, aside)) <==> NoDup(Map(CursorOfFact, b.quarantines) + Positions(aside))
  {
    var extra := AsideFacts(ctx, aside);
    var all := b.quarantines + extra;
    FurthestFacts(b.from, b.next, aside);
    forall q | q in all ensures ValidQuarantine(q) && q.source == b.source && q.site == b.site {
      if q !in b.quarantines {
        var i :| 0 <= i < |extra| && extra[i] == q;
        assert aside[i].0.Valid();
      }
    }
    assert DistinctFrom(all, ctx) by {
      forall i | 0 <= i < |all| ensures all[i].sourceHash == QuarantineDigest(ctx.source, ctx.site, all[i].cursor) {
        if i >= |b.quarantines| { assert all[i] == extra[i - |b.quarantines|]; }
      }
    }
    HashesAreCursors(ctx, all);
    MapConcat(CursorOfFact, b.quarantines, extra);
    assert Map(CursorOfFact, extra) == Positions(aside);
  }

  lemma QuarantineCursors(ctx: Context, records: seq<LogInput>)
    ensures Map(CursorOfFact, Map(Quarantined(ctx), records)) == Map(CursorOf, records)
    ensures DistinctFrom(Map(Quarantined(ctx), records), ctx)
  {
  }

  lemma NoDupConcat<T>(a: seq<T>, b: seq<T>, c: seq<T>)
    requires multiset(a) == multiset(b)
    ensures NoDup(a + c) <==> NoDup(b + c)
  {
    assert multiset(a + c) == multiset(b + c);
    NoDupPermutation(a + c, b + c);
  }

  lemma ConcatNoDup<T>(a: seq<T>, b: seq<T>)
    requires NoDup(a) && NoDup(b) && forall i, j :: 0 <= i < |a| && 0 <= j < |b| ==> a[i] != b[j]
    ensures NoDup(a + b)
  {
  }

  lemma CollectedBatch(ctx: Context, from: Cursor, inputs: seq<LogInput>)
    requires ctx.source != DirectProbe && ConvertByRequest(ctx, from, inputs).Some?
    ensures var b := ConvertByRequest(ctx, from, inputs).value;
            && b.source == ctx.source && b.site == ctx.site && b.from == from
            && (!from.IsZero() ==> !b.next.IsZero())
            && b.quarantines == Map(Quarantined(ctx), Regroup(Ids(inputs), Invalids(inputs)))
  {
    ConvertEachFacts(ctx, from, inputs, Ids(inputs));
    ByRequestSucceeds(ctx, from, inputs);
    NextCursorFacts(from, inputs);
  }

  /** A window commits exactly when its inputs convert and no two set-aside positions coincide. */
  lemma WindowBatchSucceeds(ctx: Context, from: Cursor, logs: seq<RemoteLog>)
    requires ctx.source != DirectProbe && AllLocatable(logs) && SoundAside(SetAside(logs))
    ensures WindowBatch(ctx, from, logs).Some? <==>
            && Convertible(ctx, from, Inputs(logs))
            && NoDup(Map(CursorOf, Invalids(Inputs(logs))) + Positions(SetAside(logs)))
  {
    var inputs := Inputs(logs);
    ByRequestSucceeds(ctx, from, inputs);
    if Convertible(ctx, from, inputs) {
      var b := ConvertByRequest(ctx, from, inputs).value;
      var order := Regroup(Ids(inputs), Invalids(inputs));
      CollectedBatch(ctx, from, inputs);
      QuarantineCursors(ctx, order);
      WithAsideValid(ctx, b, SetAside(logs));
      RegroupedInvalids(inputs);
      MapMultiset(CursorOf, order, Invalids(inputs));
      NoDupConcat(Map(CursorOf, order), Map(CursorOf, Invalids(inputs)), Positions(SetAside(logs)));
    }
  }

  lemma WindowKeyed(ctx: Context, from: Cursor, logs: seq<RemoteLog>)
    requires AllLocatable(logs) && WindowBatch(ctx, from, logs).Some?
    ensures ValidBatch(WindowBatch(ctx, from, logs).value)
    ensures forall r <- WindowBatch(ctx, from, logs).value.requests :: Keyed(r)
  {
    var inputs := Inputs(logs);
    ConvertEachFacts(ctx, from, inputs, Ids(inputs));
    BuildKeyed(ctx, Ids(inputs), Valids(inputs));
  }

  // ---------- for which windows that holds ----------

  ghost predicate AsideAt(logs: seq<RemoteLog>, c: Cursor)
    requires AllLocatable(logs)
  {
    exists i :: 0 <= i < |logs| && ToInput(logs[i]).Failure? && CursorOfLog(logs[i]) == c
  }

  lemma AsideAtPrefix(logs: seq<RemoteLog>, c: Cursor)
    requires logs != [] && AllLocatable(logs) && AsideAt(logs[..|logs| - 1], c)
    ensures AsideAt(logs, c)
  {
    var before := logs[..|logs| - 1];
    var i :| 0 <= i < |before| && ToInput(before[i]).Failure? && CursorOfLog(before[i]) == c;
    assert logs[i] == before[i];
  }

  lemma {:induction false} SetAsideSound(logs: seq<RemoteLog>)
    requires AllLocatable(logs) && forall i :: 0 <= i < |logs| ==> logs[i].id <= MAX_INT64
    ensures SoundAside(SetAside(logs))
    ensures forall k :: 0 <= k < |SetAside(logs)| ==> AsideAt(logs, SetAside(logs)[k].0)
  {
    if logs != [] {
      var n := |logs| - 1;
      var before := SetAside(logs[..n]);
      SetAsideSound(logs[..n]);
      LogCursorValid(logs[n]);
      forall k | 0 <= k < |before| ensures AsideAt(logs, before[k].0) {
        AsideAtPrefix(logs, before[k].0);
      }
      assert ToInput(logs[n]).Failure? ==> AsideAt(logs, CursorOfLog(logs[n]));
    }
  }

  lemma PositionsIdentify(logs: seq<RemoteLog>, i: nat, j: nat)
    requires WellIdentified(logs) && i < |logs| && j < |logs| && CursorOfLog(logs[i]) == CursorOfLog(logs[j])
    ensures logs[i] == logs[j]
  {
    LogCursorIdentifies(logs[i].createdAt, logs[i].kind, logs[i].id, logs[j].createdAt, logs[j].kind, logs[j].id);
    assert SamePosition(logs[i], logs[j]);
  }

  lemma NotAsideTwice(logs: seq<RemoteLog>)
    requires logs != [] && WellIdentified(logs) && NoDup(logs)
    ensures !AsideAt(logs[..|logs| - 1], CursorOfLog(logs[|logs| - 1]))
  {
    var n := |logs| - 1;
    var c := CursorOfLog(logs[n]);
    if AsideAt(logs[..n], c) {
      var i :| 0 <= i < n && ToInput(logs[..n][i]).Failure? && CursorOfLog(logs[..n][i]) == c;
      PositionsIdentify(logs, i, n);
    }
  }

  lemma PrefixIdentified(logs: seq<RemoteLog>)
    requires logs != [] && WellIdentified(logs) && NoDup(logs)
    ensures WellIdentified(logs[..|logs| - 1]) && NoDup(logs[..|logs| - 1])
  {
  }

  lemma {:induction false} AsideDistinct(logs: seq<RemoteLog>)
    requires WellIdentified(logs) && NoDup(logs)
    ensures NoDup(Positions(SetAside(logs)))
  {
    if logs != [] {
      var n := |logs| - 1;
      var before := SetAside(logs[..n]);
      PrefixIdentified(logs);
      AsideDistinct(logs[..n]);
      SetAsideSound(logs[..n]);
      NotAsideTwice(logs);
      if ToInput(logs[n]).Failure? {
        var p := Positions(before);
        assert forall k :: 0 <= k < |p| ==> p[k] == before[k].0 && AsideAt(logs[..n], p[k]);
        assert Positions(SetAside(logs)) == p + [CursorOfLog(logs[n])];
      }
    }
  }

  lemma AsideApart(logs: seq<RemoteLog>, r: LogInput, k: nat)
    requires WellIdentified(logs) && SummariesStorable(logs)
    requires r in Inputs(logs) && k < |SetAside(logs)|
    ensures r.cursor != SetAside(logs)[k].0
  {
    InputOrigin(logs);
    SetAsideSound(logs);
    var i :| 0 <= i < |logs| && ToInput(logs[i]) == Success(r);
    assert AsideAt(logs, SetAside(logs)[k].0);
    var j :| 0 <= j < |logs| && ToInput(logs[j]).Failure? && CursorOfLog(logs[j]) == SetAside(logs)[k].0;
    InputShape(logs[i]);
    if r.cursor == SetAside(logs)[k].0 { PositionsIdentify(logs, i, j); }
  }

  /**
   A window of distinct, well identified logs with storable summaries always gives a
   committable batch, however malformed the individual logs are.
   */
  lemma WindowAlwaysCommits(ctx: Context, from: Cursor, logs: seq<RemoteLog>)
    requires ctx.source != DirectProbe && ctx.site != NIL && (from.IsZero() || from.Valid())
    requires WellIdentified(logs) && SummariesStorable(logs) && NoDup(logs)
    ensures WindowBatch(ctx, from, logs).Some?
  {
    var a, b := Map(CursorOf, Invalids(Inputs(logs))), Positions(SetAside(logs));
    WindowConverts(ctx, from, logs);
    ConvertSucceeds(ctx, from, Inputs(logs));
    SetAsideSound(logs);
    AsideDistinct(logs);
    FilterMembers(InvalidRecord, Records(Inputs(logs)));
    RecordsSubset(Inputs(logs));
    forall i, j | 0 <= i < |a| && 0 <= j < |b| ensures a[i] != b[j] {
      assert Invalids(Inputs(logs))[i] in Invalids(Inputs(logs));
      AsideApart(logs, Invalids(Inputs(logs))[i], j);
    }
    ConcatNoDup(a, b);
    WindowBatchSucceeds(ctx, from, logs);
  }

  predicate Malformed(log: RemoteLog) { Locatable(log) && ToInput(log).Failure? }

  lemma {:induction false} SetAsidePositions(logs: seq<RemoteLog>)
    requires AllLocatable(logs)
    ensures |SetAside(logs)| == |Filter(Malformed, logs)|
    ensures forall k :: 0 <= k < |SetAside(logs)| ==>
              Malformed(Filter(Malformed, logs)[k]) && SetAside(logs)[k].0 == CursorOfLog(Filter(Malformed, logs)[k])
  {
    if logs != [] { SetAsidePositions(logs[..|logs| - 1]); }
  }

  lemma {:induction false} FilterIndex<T>(p: T -> bool, s: seq<T>, i: nat) returns (a: nat)
    requires i < |s| && p(s[i])
    ensures a < |Filter(p, s)| && Filter(p, s)[a] == s[i]
  {
    if i < |s| - 1 { a := FilterIndex(p, s[..|s| - 1], i); } else { a := |Filter(p, s)| - 1; }
  }

  lemma {:induction false} FilterIndices<T>(p: T -> bool, s: seq<T>, i: nat, j: nat) returns (a: nat, b: nat)
    requires i < j < |s| && p(s[i]) && p(s[j])
    ensures a < b < |Filter(p, s)| && Filter(p, s)[a] == s[i] && Filter(p, s)[b] == s[j]
  {
    if j < |s| - 1 {
      a, b := FilterIndices(p, s[..|s| - 1], i, j);
    } else {
      a := FilterIndex(p, s[..j], i);
      b := |Filter(p, s)| - 1;
    }
  }

  lemma RepeatsLater<T>(a: seq<T>, b: seq<T>, p: nat, q: nat)
    requires p < q < |b| && b[p] == b[q]
    ensures !NoDup(a + b)
  {
    assert (a + b)[|a| + p] == (a + b)[|a| + q];
  }

  /**
   Distinctness is needed: converted records are deduplicated but logs set aside are not, so
   a page boundary that shows one malformed log twice makes the whole window fail, wherever
   the two positions are and whatever else the window holds.
   */
  lemma RepeatedAsideFails(ctx: Context, from: Cursor, logs: seq<RemoteLog>, i: nat, j: nat)
    requires ctx.source != DirectProbe && AllLocatable(logs) && forall k :: 0 <= k < |logs| ==> logs[k].id <= MAX_INT64
    requires i < j < |logs| && ToInput(logs[i]).Failure? && ToInput(logs[j]).Failure?
    requires CursorOfLog(logs[i]) == CursorOfLog(logs[j])
    ensures WindowBatch(ctx, from, logs).None?
  {
    SetAsideSound(logs);
    WindowBatchSucceeds(ctx, from, logs);
    SetAsidePositions(logs);
    var p, q := FilterIndices(Malformed, logs, i, j);
    RepeatsLater(Map(CursorOf, Invalids(Inputs(logs))), Positions(SetAside(logs)), p, q);
  }
}
