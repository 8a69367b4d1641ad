/** The conversion loops, proved against the functions of Conversion, Batches and PerRequest. */
module Converter {
  import opened Wrappers
  import opened Sequences
  import opened Cursors
  import opened Measurement
  import opened LogHash
  import opened ErrorClasses
  import opened Conversion
  import opened RequestFacts
  import opened Batches
  import opened PerRequest

  // ---------- one request ----------

  method ChannelSequence(records: seq<LogInput>) returns (s: seq<int>)
    requires records != []
    ensures s == Channels(records)
    ensures Tried(records, s)
  {
    s := [];
    for i := 0 to |records|
      invariant s == ReportedChannels(records[..i])
    {
      assert records[..i + 1][..i] == records[..i];
      if |records[i].usedChannels| >= |s| {
        s := records[i].usedChannels;
      }
    }
    assert records[..|records|] == records;
    var last := records[|records| - 1].channel;
    if |s| == 0 || s[|s| - 1] != last {
      s := s + [last];
    }
    assert s == Channels(records);
    ChannelsTried(records);
  }

  method EarlierFailures(records: seq<LogInput>) returns (failures: seq<LogInput>)
    requires records != []
    ensures failures == Failures(records)
  {
    failures := [];
    var n := |records| - 1;
    for i := 0 to n
      invariant failures == Filter(IsFailure, records[..n][..i])
    {
      assert records[..n][..i + 1][..i] == records[..n][..i];
      if records[i].result == Failed {
        failures := failures + [records[i]];
      }
    }
    assert records[..n][..n] == records[..n];
  }

  ghost predicate Marks(used: array<bool>, indices: set<nat>)
    reads used
  {
    (forall i <- indices :: i < used.Length) && forall i: nat :: i < used.Length ==> (used[i] <==> i in indices)
  }

  method ExplainAttempt(failures: seq<LogInput>, used: array<bool>, channels: seq<int>, n: nat) returns (k: nat)
    requires used.Length == |failures| && n < |channels|
    requires Marks(used, Used(failures, channels, n))
    modifies used
    ensures k == FirstUnused(failures, Used(failures, channels, n), channels[n], 0)
    ensures Marks(used, Used(failures, channels, n + 1))
  {
    ghost var before := Used(failures, channels, n);
    k := 0;
    while k < |failures| && (used[k] || failures[k].channel != channels[n])
      invariant k <= |failures|
      invariant FirstUnused(failures, before, channels[n], k) == FirstUnused(failures, before, channels[n], 0)
    {
      k := k + 1;
    }
    if k < |failures| {
      used[k] := true;
    }
  }

  method NextAttempt(
    ctx: Context, records: seq<LogInput>, channels: seq<int>, failures: seq<LogInput>, used: array<bool>, n: nat)
    returns (attempt: AttemptFact)
    requires records != [] && channels == Channels(records) && failures == Failures(records)
    requires n < |channels| && used.Length == |failures| && Marks(used, Used(failures, channels, n))
    modifies used
    ensures attempt == Attempt(ctx, records, n)
    ensures n < |channels| - 1 ==> Marks(used, Used(failures, channels, n + 1))
  {
    var t := Terminal(records);
    if n == |channels| - 1 {
      attempt := Measured(ctx, t.requestId, n + 1, channels[n], t, true, Fails(records));
    } else {
      var k := ExplainAttempt(failures, used, channels, n);
      if k < |failures| {
        attempt := Measured(ctx, t.requestId, n + 1, channels[n], failures[k], false, true);
      } else {
        attempt := Assumed(ctx, t.requestId, n + 1, channels[n], t, records[|records| - 1]);
      }
    }
  }

  lemma AttemptsSnoc(ctx: Context, records: seq<LogInput>, n: nat)
    requires records != [] && n < |Channels(records)|
    ensures Attempts(ctx, records, n + 1) == Attempts(ctx, records, n) + [Attempt(ctx, records, n)]
  {
  }

  function ChannelOf(a: AttemptFact): int { a.channel }

  method ConvertRequest(ctx: Context, records: seq<LogInput>) returns (request: RequestFact, attempts: seq<AttemptFact>)
    requires records != []
    ensures request == Request(ctx, records) && attempts == AllAttempts(ctx, records)
    ensures FactsSay(ctx, records, Map(ChannelOf, attempts), request, attempts)
  {
    var channels := ChannelSequence(records);
    var failures := EarlierFailures(records);
    var used := new bool[|failures|](i => false);
    attempts := [];
    assert Attempts(ctx, records, 0) == [];
    var n := 0;
    while n < |channels|
      invariant n <= |channels|
      invariant attempts == Attempts(ctx, records, n)
      invariant n < |channels| ==> Marks(used, Used(failures, channels, n))
    {
      var attempt := NextAttempt(ctx, records, channels, failures, used, n);
      AttemptsSnoc(ctx, records, n);
      attempts := attempts + [attempt];
      n := n + 1;
    }
    request := Concluded(
      ctx, RevisionDigest(Log(ctx, records[|records| - 1]), Map(AttemptHash, attempts)),
      Terminal(records), Fails(records), |channels|, records[0].cursor.at);
    FactsExact(ctx, records);
    assert Map(ChannelOf, attempts) == channels;
  }

  // ---------- grouping ----------

  function Entry(groups: map<string, seq<LogInput>>, id: string): seq<LogInput> {
    if id in groups then groups[id] else []
  }

  /** The table holds the group of every request seen so far, and nothing else. */
  ghost predicate Grouped(groups: map<string, seq<LogInput>>, order: seq<string>, records: seq<LogInput>) {
    && order == Ids(records)
    && forall id: string {:trigger Entry(groups, id)} :: Entry(groups, id) == Group(id, records)
  }

  lemma KeyOfGroup(id: string, records: seq<LogInput>)
    ensures id in Keys(RequestId, records) <==> Group(id, records) != []
  {
    KeysMembers(RequestId, records);
    FilterMembers(OfRequest(id), records);
    if Group(id, records) != [] {
      var x := Group(id, records)[0];
      assert x in records && RequestId(x) in Keys(RequestId, records);
    }
    if id in Keys(RequestId, records) {
      var i :| 0 <= i < |records| && RequestId(records[i]) == id;
      assert records[i] in Group(id, records);
    }
  }

  lemma IdsSnoc(records: seq<LogInput>, r: LogInput)
    ensures Ids(records + [r]) == if Group(r.requestId, records) != [] then Ids(records) else Ids(records) + [r.requestId]
  {
    assert (records + [r])[..|records|] == records;
    KeyOfGroup(r.requestId, records);
    MapConcat(RequestId, Dedup(RequestId, records), [r]);
    assert Map(RequestId, [r]) == [r.requestId];
  }

  method AddToGroup(groups: map<string, seq<LogInput>>, order: seq<string>, ghost records: seq<LogInput>, r: LogInput)
    returns (groups': map<string, seq<LogInput>>, order': seq<string>)
    requires Grouped(groups, order, records)
    ensures Grouped(groups', order', records + [r])
  {
    var id := r.requestId;
    var present := Entry(groups, id);
    order' := order;
    if present == [] {
      order' := order + [id];
    }
    groups' := groups[id := present + [r]];
    IdsSnoc(records, r);
    forall k: string ensures Entry(groups', k) == Group(k, records + [r]) {
      assert Entry(groups, k) == Group(k, records);
      FilterSnoc(OfRequest(k), records, r);
    }
  }

  /** Every listed request has its non-empty group in the table. */
  ghost predicate Listed(groups: map<string, seq<LogInput>>, order: seq<string>, records: seq<LogInput>) {
    forall k :: 0 <= k < |order| ==> order[k] in groups && groups[order[k]] == Group(order[k], records) && groups[order[k]] != []
  }

  lemma GroupedListed(groups: map<string, seq<LogInput>>, order: seq<string>, records: seq<LogInput>)
    requires Grouped(groups, order, records)
    ensures Listed(groups, order, records)
  {
    IdsFacts(records);
    forall k | 0 <= k < |order|
      ensures order[k] in groups && groups[order[k]] == Group(order[k], records) && groups[order[k]] != []
    {
      assert order[k] in order;
      assert Entry(groups, order[k]) == Group(order[k], records);
    }
  }

  // ---------- a whole window ----------

  lemma QuarantineSnoc(ctx: Context, records: seq<LogInput>, r: LogInput)
    ensures Map(Quarantined(ctx), Filter(InvalidRecord, records + [r])) ==
            if ValidRecord(r) then Map(Quarantined(ctx), Filter(InvalidRecord, records))
            else Map(Quarantined(ctx), Filter(InvalidRecord, records)) + [Quarantine(ctx, r.cursor, InvalidReason(r))]
  {
    FilterSnoc(InvalidRecord, records, r);
    assert Quarantined(ctx)(r) == Quarantine(ctx, r.cursor, InvalidReason(r));
    MapConcat(Quarantined(ctx), Filter(InvalidRecord, records), [r]);
    assert Map(Quarantined(ctx), [r]) == [Quarantined(ctx)(r)];
  }

  /** Deals one new record to its request group or to the quarantines. */
  method DealOne(
    ctx: Context, ghost records: seq<LogInput>, r: LogInput,
    groups: map<string, seq<LogInput>>, order: seq<string>, quarantines: seq<QuarantineFact>)
    returns (groups': map<string, seq<LogInput>>, order': seq<string>, quarantines': seq<QuarantineFact>)
    requires Grouped(groups, order, Filter(ValidRecord, records))
    requires quarantines == Map(Quarantined(ctx), Filter(InvalidRecord, records))
    ensures Grouped(groups', order', Filter(ValidRecord, records + [r]))
    ensures quarantines' == Map(Quarantined(ctx), Filter(InvalidRecord, records + [r]))
  {
    groups', order', quarantines' := groups, order, quarantines;
    FilterSnoc(ValidRecord, records, r);
    QuarantineSnoc(ctx, records, r);
    if InvalidReason(r) != NoReason {
      quarantines' := quarantines + [Quarantine(ctx, r.cursor, InvalidReason(r))];
    } else {
      groups', order' := AddToGroup(groups, order, Filter(ValidRecord, records), r);
    }
  }

  lemma DealtNext(from: Cursor, sorted: seq<LogInput>, i: nat)
    requires i < |sorted|
    ensures var r, before := sorted[i], Dedup(Identity, sorted[..i]);
            && Keys(Identity, sorted[..i + 1]) == Keys(Identity, sorted[..i]) + {Identity(r)}
            && Dedup(Identity, sorted[..i + 1]) == (if Identity(r) in Keys(Identity, sorted[..i]) then before else before + [r])
            && NextCursor(from, before + [r]) == Later(NextCursor(from, before), r.cursor)
  {
    var before := Dedup(Identity, sorted[..i]);
    assert sorted[..i + 1][..i] == sorted[..i];
    assert (before + [sorted[i]])[..|before|] == before;
  }

  /** Drops repeated records and deals the rest. */
  method Deal(ctx: Context, from: Cursor, sorted: seq<LogInput>)
    returns (groups: map<string, seq<LogInput>>, order: seq<string>, quarantines: seq<QuarantineFact>, next: Cursor)
    ensures Grouped(groups, order, Filter(ValidRecord, Dedup(Identity, sorted)))
    ensures quarantines == Map(Quarantined(ctx), Filter(InvalidRecord, Dedup(Identity, sorted)))
    ensures next == NextCursor(from, Dedup(Identity, sorted))
  {
    var seen: set<LogInput> := {};
    groups, order, quarantines, next := map[], [], [], from;
    var i := 0;
    while i < |sorted|
      invariant i <= |sorted|
      invariant seen == Keys(Identity, sorted[..i])
      invariant Grouped(groups, order, Filter(ValidRecord, Dedup(Identity, sorted[..i])))
      invariant quarantines == Map(Quarantined(ctx), Filter(InvalidRecord, Dedup(Identity, sorted[..i])))
      invariant next == NextCursor(from, Dedup(Identity, sorted[..i]))
    {
      var r := sorted[i];
      ghost var records := Dedup(Identity, sorted[..i]);
      DealtNext(from, sorted, i);
      if Identity(r) !in seen {
        seen := seen + {Identity(r)};
        groups, order, quarantines := DealOne(ctx, records, r, groups, order, quarantines);
        next := Later(next, r.cursor);
      }
      i := i + 1;
    }
    assert sorted[..|sorted|] == sorted;
  }

  /** The facts of the first `i` requests. */
  ghost predicate Built(ctx: Context, order: seq<string>, i: nat, records: seq<LogInput>, facts: Facts) {
    i <= |order| && facts == Build(ctx, order[..i], records)
  }

  lemma BuiltAll(ctx: Context, order: seq<string>, records: seq<LogInput>, facts: Facts)
    ensures Built(ctx, order, 0, records, NO_FACTS)
    ensures Built(ctx, order, |order|, records, facts) ==> facts == Build(ctx, order, records)
  {
    assert order[..|order|] == order;
  }

  /** Converts the groups in order. */
  method ConvertGroups(ctx: Context, groups: map<string, seq<LogInput>>, order: seq<string>, ghost records: seq<LogInput>)
    returns (facts: Facts)
    requires Listed(groups, order, records)
    ensures facts == Build(ctx, order, records)
  {
    facts := NO_FACTS;
    BuiltAll(ctx, order, records, facts);
    var i := 0;
    while i < |order|
      invariant Built(ctx, order, i, records, facts)
    {
      var group := groups[order[i]];
      var request, attempts := ConvertRequest(ctx, group);
      BuildNext(ctx, order, i, records, group, facts, Facts([request], attempts));
      facts := Join(facts, Facts([request], attempts));
      i := i + 1;
    }
    BuiltAll(ctx, order, records, facts);
  }

  lemma BuildNext(ctx: Context, order: seq<string>, i: nat, records: seq<LogInput>, group: seq<LogInput>, before: Facts, more: Facts)
    requires i < |order| && group == Group(order[i], records) && group != []
    requires Built(ctx, order, i, records, before) && more == Facts([Request(ctx, group)], AllAttempts(ctx, group))
    ensures Built(ctx, order, i + 1, records, Join(before, more))
  {
    BuildSnoc(ctx, order, i, records);
  }

  lemma BuildSnoc(ctx: Context, order: seq<string>, i: nat, records: seq<LogInput>)
    requires i < |order|
    ensures Build(ctx, order[..i + 1], records) == Join(Build(ctx, order[..i], records), FactsOf(ctx, order[i], records))
  {
    CollectDrop(PerId(ctx, records), order[..i], order[i]);
    assert order[..i + 1] == order[..i] + [order[i]];
  }

  // ---------- validation ----------

  ghost predicate AllPass<T>(rule: T -> bool, s: seq<T>) { forall k :: 0 <= k < |s| ==> rule(s[k]) }

  ghost predicate Tabled(table: map<Digest, RequestFact>, requests: seq<RequestFact>) {
    && (forall h :: h in table ==> exists k :: 0 <= k < |requests| && requests[k].requestHash == h)
    && forall k :: 0 <= k < |requests| ==> requests[k].requestHash in table && table[requests[k].requestHash] == requests[k]
  }

  method ValidateRequests(requests: seq<RequestFact>, rule: RequestFact -> bool)
    returns (ok: bool, table: map<Digest, RequestFact>)
    ensures ok <==> RequestsDistinct(requests) && AllPass(rule, requests)
    ensures ok ==> Tabled(table, requests)
  {
    table := map[];
    for i := 0 to |requests|
      invariant AllPass(rule, requests[..i])
      invariant RequestsDistinct(requests[..i])
      invariant Tabled(table, requests[..i])
    {
      var r := requests[i];
      if !rule(r) || r.requestHash in table {
        if r.requestHash in table {
          var k :| 0 <= k < i && requests[..i][k].requestHash == r.requestHash;
          assert requests[k].requestHash == r.requestHash;
        }
        return false, table;
      }
      table := table[r.requestHash := r];
      assert requests[..i + 1] == requests[..i] + [r];
    }
    assert requests[..|requests|] == requests;
    ok := true;
  }

  method ValidateQuarantines(quarantines: seq<QuarantineFact>, rule: QuarantineFact -> bool) returns (ok: bool)
    ensures ok <==> QuarantinesDistinct(quarantines) && AllPass(rule, quarantines)
  {
    var seen: set<Digest> := {};
    for i := 0 to |quarantines|
      invariant AllPass(rule, quarantines[..i])
      invariant QuarantinesDistinct(quarantines[..i])
      invariant forall h :: h in seen <==> exists k :: 0 <= k < i && quarantines[k].sourceHash == h
    {
      var q := quarantines[i];
      if !rule(q) || q.sourceHash in seen {
        return false;
      }
      seen := seen + {q.sourceHash};
    }
    assert quarantines[..|quarantines|] == quarantines;
    ok := true;
  }

  /** The attempts of every request, by ordinal. */
  ghost predicate Indexed(index: map<Digest, map<nat, AttemptFact>>, attempts: seq<AttemptFact>) {
    && (forall h :: Ordinals(attempts, h) == if h in index then index[h].Keys else {})
    && forall i :: 0 <= i < |attempts| ==>
         && attempts[i].requestHash in index
         && attempts[i].ordinal in index[attempts[i].requestHash]
         && index[attempts[i].requestHash][attempts[i].ordinal] == attempts[i]
  }

  ghost predicate Seen(seen: set<Digest>, attempts: seq<AttemptFact>) {
    forall h :: h in seen <==> exists k :: 0 <= k < |attempts| && attempts[k].sourceHash == h
  }

  lemma SeenSnoc(seen: set<Digest>, attempts: seq<AttemptFact>, a: AttemptFact)
    requires Seen(seen, attempts)
    ensures Seen(seen + {a.sourceHash}, attempts + [a])
  {
    var s := attempts + [a];
    assert s[|attempts|] == a;
    forall h | h in seen ensures exists k :: 0 <= k < |s| && s[k].sourceHash == h {
      var k :| 0 <= k < |attempts| && attempts[k].sourceHash == h;
      assert s[k] == attempts[k];
    }
  }

  lemma Accept(
    attempts: seq<AttemptFact>, i: nat, seen: set<Digest>, index: map<Digest, map<nat, AttemptFact>>, known: map<nat, AttemptFact>)
    requires i < |attempts|
    requires AttemptsDistinct(attempts[..i]) && Seen(seen, attempts[..i]) && Indexed(index, attempts[..i])
    requires known == if attempts[i].requestHash in index then index[attempts[i].requestHash] else map[]
    requires attempts[i].ordinal !in known && attempts[i].sourceHash !in seen
    ensures AttemptsDistinct(attempts[..i + 1]) && Seen(seen + {attempts[i].sourceHash}, attempts[..i + 1])
    ensures Indexed(index[attempts[i].requestHash := known[attempts[i].ordinal := attempts[i]]], attempts[..i + 1])
  {
    var before, a := attempts[..i], attempts[i];
    assert known.Keys == Ordinals(before, a.requestHash);
    DistinctSnoc(before, a);
    SeenSnoc(seen, before, a);
    IndexSnoc(index, before, a, known);
    assert attempts[..i + 1] == before + [a];
  }

  /** Checks one attempt against those before it. */
  method AcceptAttempt(
    attempts: seq<AttemptFact>, i: nat, rule: AttemptFact -> bool, seen: set<Digest>,
    index: map<Digest, map<nat, AttemptFact>>)
    returns (ok: bool, seen': set<Digest>, index': map<Digest, map<nat, AttemptFact>>)
    requires i < |attempts|
    requires AttemptsDistinct(attempts[..i]) && Seen(seen, attempts[..i]) && Indexed(index, attempts[..i])
    ensures ok ==> rule(attempts[i]) && AttemptsDistinct(attempts[..i + 1])
    ensures ok ==> Seen(seen', attempts[..i + 1]) && Indexed(index', attempts[..i + 1])
    ensures !ok ==> !rule(attempts[i]) || !AttemptsDistinct(attempts)
  {
    var a := attempts[i];
    var known := if a.requestHash in index then index[a.requestHash] else map[];
    seen', index' := seen, index;
    if !rule(a) { return false, seen', index'; }
    assert known.Keys == Ordinals(attempts[..i], a.requestHash);
    if a.ordinal in known || a.sourceHash in seen {
      Duplicated(attempts, i);
      return false, seen', index';
    }
    Accept(attempts, i, seen, index, known);
    ok, seen', index' := true, seen + {a.sourceHash}, index[a.requestHash := known[a.ordinal := a]];
  }

  method ValidateAttempts(attempts: seq<AttemptFact>, rule: AttemptFact -> bool)
    returns (ok: bool, index: map<Digest, map<nat, AttemptFact>>)
    ensures ok <==> AttemptsDistinct(attempts) && AllPass(rule, attempts)
    ensures ok ==> Indexed(index, attempts)
  {
    index := map[];
    var seen: set<Digest> := {};
    for i := 0 to |attempts|
      invariant AllPass(rule, attempts[..i])
      invariant AttemptsDistinct(attempts[..i])
      invariant Seen(seen, attempts[..i])
      invariant Indexed(index, attempts[..i])
    {
      ok, seen, index := AcceptAttempt(attempts, i, rule, seen, index);
      if !ok {
        return;
      }
    }
    assert attempts[..|attempts|] == attempts;
    ok := true;
  }

  lemma Duplicated(attempts: seq<AttemptFact>, i: nat)
    requires i < |attempts|
    requires attempts[i].ordinal in Ordinals(attempts[..i], attempts[i].requestHash) ||
             exists k :: 0 <= k < |attempts[..i]| && attempts[..i][k].sourceHash == attempts[i].sourceHash
    ensures !AttemptsDistinct(attempts)
  {
    var k :| 0 <= k < i &&
      ((attempts[..i][k].requestHash == attempts[i].requestHash && attempts[..i][k].ordinal == attempts[i].ordinal) ||
       attempts[..i][k].sourceHash == attempts[i].sourceHash);
    assert attempts[k] == attempts[..i][k];
  }

  lemma DistinctSnoc(attempts: seq<AttemptFact>, a: AttemptFact)
    requires AttemptsDistinct(attempts) && a.ordinal !in Ordinals(attempts, a.requestHash)
    requires forall k :: 0 <= k < |attempts| ==> attempts[k].sourceHash != a.sourceHash
    ensures AttemptsDistinct(attempts + [a])
  {
  }

  lemma IndexSnoc(index: map<Digest, map<nat, AttemptFact>>, attempts: seq<AttemptFact>, a: AttemptFact, known: map<nat, AttemptFact>)
    requires Indexed(index, attempts) && a.ordinal !in Ordinals(attempts, a.requestHash)
    requires known == if a.requestHash in index then index[a.requestHash] else map[]
    ensures Indexed(index[a.requestHash := known[a.ordinal := a]], attempts + [a])
  {
    var s, grown := attempts + [a], index[a.requestHash := known[a.ordinal := a]];
    forall h ensures Ordinals(s, h) == if h in grown then grown[h].Keys else {} {
      OrdinalsConcat(attempts, [a], h);
      if h == a.requestHash {
        assert [a][0] == a;
        assert Ordinals([a], h) == {a.ordinal};
      } else {
        OrdinalsElsewhere([a], h);
      }
    }
    forall i | 0 <= i < |s|
      ensures s[i].requestHash in grown && s[i].ordinal in grown[s[i].requestHash] && grown[s[i].requestHash][s[i].ordinal] == s[i]
    {
      if i < |attempts| {
        assert s[i] == attempts[i];
        assert attempts[i].requestHash == a.requestHash ==> attempts[i].ordinal != a.ordinal;
      }
    }
  }

  lemma {:induction false} FullSet(s: set<nat>, n: nat)
    requires |s| == n && forall k: nat :: 1 <= k <= n ==> k in s
    ensures forall k: nat :: k in s <==> 1 <= k <= n
  {
    if n == 0 {
      assert s == {};
    } else {
      assert n in s;
      FullSet(s - {n}, n - 1);
      assert forall k: nat :: k in s <==> k in s - {n} || k == n;
    }
  }

  lemma CountUpTo(s: set<nat>, n: nat)
    requires forall k: nat :: k in s <==> 1 <= k <= n
    ensures |s| == n
  {
    if n == 0 {
      assert s == {};
    } else {
      CountUpTo(s - {n}, n - 1);
      assert s == (s - {n}) + {n};
    }
  }

  method ValidateSequence(r: RequestFact, attempts: map<nat, AttemptFact>) returns (ok: bool)
    requires r.attemptCount >= 1
    requires forall k <- attempts :: attempts[k].ordinal == k
    ensures ok <==> (forall k: nat :: k in attempts <==> 1 <= k <= r.attemptCount) && forall k <- attempts :: Agrees(attempts[k], r)
  {
    if |attempts| != r.attemptCount {
      if forall k: nat :: k in attempts <==> 1 <= k <= r.attemptCount { CountUpTo(attempts.Keys, r.attemptCount); }
      return false;
    }
    for k := 1 to r.attemptCount + 1
      invariant forall j: nat :: 1 <= j < k ==> j in attempts
    {
      if k !in attempts { return false; }
    }
    FullSet(attempts.Keys, r.attemptCount);
    var last := attempts[r.attemptCount];
    if last.channel != r.finalChannel || last.http != r.http || last.isStream != r.isStream || !last.isFinal || last.result != r.result {
      return false;
    }
    for k := 1 to r.attemptCount
      invariant forall j: nat :: 1 <= j < k ==> !attempts[j].isFinal
    {
      if attempts[k].isFinal { return false; }
    }
    ok := true;
  }

  lemma CompleteByIndex(r: RequestFact, index: map<Digest, map<nat, AttemptFact>>, attempts: seq<AttemptFact>)
    requires Indexed(index, attempts)
    ensures var own := if r.requestHash in index then index[r.requestHash] else map[];
            && (forall k <- own :: own[k].ordinal == k)
            && (Complete(r, attempts) <==>
                  (forall k: nat :: k in own <==> 1 <= k <= r.attemptCount) && forall k <- own :: Agrees(own[k], r))
  {
    var own: map<nat, AttemptFact> := if r.requestHash in index then index[r.requestHash] else map[];
    assert own.Keys == Ordinals(attempts, r.requestHash);
    forall k | k in own ensures exists i :: 0 <= i < |attempts| && attempts[i].requestHash == r.requestHash && attempts[i] == own[k] && own[k].ordinal == k {
      assert k in Ordinals(attempts, r.requestHash);
      var i :| 0 <= i < |attempts| && attempts[i].requestHash == r.requestHash && attempts[i].ordinal == k;
      assert attempts[i] == own[k];
    }
    assert forall i :: 0 <= i < |attempts| && attempts[i].requestHash == r.requestHash ==> attempts[i].ordinal in own && own[attempts[i].ordinal] == attempts[i];
  }

  function RequestRule(b: Batch): RequestFact -> bool {
    (r: RequestFact) => ValidRequest(r) && r.source == b.source && r.site == b.site
  }

  function AttemptRule(b: Batch, table: map<Digest, RequestFact>): AttemptFact -> bool {
    (a: AttemptFact) =>
      && ValidAttempt(a) && a.source == b.source && a.site == b.site
      && a.requestHash in table && table[a.requestHash].requestId == a.requestId
  }

  function QuarantineRule(b: Batch): QuarantineFact -> bool {
    (q: QuarantineFact) => ValidQuarantine(q) && q.source == b.source && q.site == b.site
  }

  method ValidateCompleteness(requests: seq<RequestFact>, index: map<Digest, map<nat, AttemptFact>>, ghost attempts: seq<AttemptFact>)
    returns (ok: bool)
    requires Indexed(index, attempts) && forall r <- requests :: r.attemptCount >= 1
    ensures ok <==> forall r <- requests :: Complete(r, attempts)
  {
    for i := 0 to |requests|
      invariant forall k :: 0 <= k < i ==> Complete(requests[k], attempts)
    {
      var r := requests[i];
      assert r in requests;
      CompleteByIndex(r, index, attempts);
      var complete := ValidateSequence(r, if r.requestHash in index then index[r.requestHash] else map[]);
      if !complete { return false; }
    }
    ok := true;
  }

  /** Scope and cursors. */
  predicate FrameValid(b: Batch) {
    && ValidScope(b.source, b.site)
    && (!b.from.IsZero() ==> b.from.Valid())
    && (!b.next.IsZero() ==> b.next.Valid())
    && (!b.from.IsZero() && !b.next.IsZero() ==> b.next.Compare(b.from) >= 0)
  }

  lemma BelongsByTable(b: Batch, table: map<Digest, RequestFact>, a: AttemptFact)
    requires Tabled(table, b.requests)
    ensures Belongs(a, b.requests) <==> a.requestHash in table && table[a.requestHash].requestId == a.requestId
  {
    if a.requestHash in table {
      var k :| 0 <= k < |b.requests| && b.requests[k].requestHash == a.requestHash;
      assert table[a.requestHash] == b.requests[k];
    }
  }

  lemma RulesSuffice(b: Batch, table: map<Digest, RequestFact>)
    requires Tabled(table, b.requests)
    ensures ValidBatch(b) <==>
            && FrameValid(b)
            && RequestsDistinct(b.requests) && AllPass(RequestRule(b), b.requests)
            && AttemptsDistinct(b.attempts) && AllPass(AttemptRule(b, table), b.attempts)
            && (forall r <- b.requests :: Complete(r, b.attempts))
            && QuarantinesDistinct(b.quarantines) && AllPass(QuarantineRule(b), b.quarantines)
  {
    CompareLaws(b.next, b.from);
    forall a | a in b.attempts
      ensures AttemptRule(b, table)(a) <==> ValidAttempt(a) && a.source == b.source && a.site == b.site && Belongs(a, b.requests)
    {
      BelongsByTable(b, table, a);
    }
  }

  lemma RequestRuleNeeded(b: Batch)
    requires ValidBatch(b)
    ensures FrameValid(b) && RequestsDistinct(b.requests) && AllPass(RequestRule(b), b.requests)
  {
    CompareLaws(b.next, b.from);
  }

  method Validate(b: Batch) returns (ok: bool)
    ensures ok <==> ValidBatch(b)
  {
    var requestsOk, table := ValidateRequests(b.requests, RequestRule(b));
    if ValidBatch(b) { RequestRuleNeeded(b); }
    if !FrameValid(b) || !requestsOk { return false; }
    RulesSuffice(b, table);
    var attemptsOk, index := ValidateAttempts(b.attempts, AttemptRule(b, table));
    if !attemptsOk { return false; }
    assert forall r <- b.requests :: r.attemptCount >= 1;
    var completeOk := ValidateCompleteness(b.requests, index, b.attempts);
    if !completeOk { return false; }
    ok := ValidateQuarantines(b.quarantines, QuarantineRule(b));
  }

  // ---------- the two entry points ----------

  /** Converts a whole window. */
  method ConvertLogs(ctx: Context, from: Cursor, inputs: seq<LogInput>) returns (r: Option<Batch>)
    ensures r == Convert(ctx, from, inputs)
  {
    if !Acceptable(ctx, from, inputs) { return None; }
    var groups, order, quarantines, next := Deal(ctx, from, StableSort(InputLe, inputs));
    GroupedListed(groups, order, Valids(inputs));
    var facts := ConvertGroups(ctx, groups, order, Valids(inputs));
    var batch := Batch(ctx.source, ctx.site, from, next, facts.requests, facts.attempts, quarantines);
    assert batch == Assemble(ctx, from, inputs);
    var ok := Validate(batch);
    r := if ok then Some(batch) else None;
  }

  lemma NextSnoc(from: Cursor, records: seq<LogInput>, r: LogInput)
    ensures NextCursor(from, records + [r]) == Later(NextCursor(from, records), r.cursor)
  {
    assert (records + [r])[..|records|] == records;
  }

  /** Groups raw records by request identifier, in order of arrival. */
  method GroupInputs(from: Cursor, inputs: seq<LogInput>)
    returns (groups: map<string, seq<LogInput>>, order: seq<string>, next: Cursor)
    ensures Grouped(groups, order, inputs) && next == NextCursor(from, inputs)
  {
    groups, order, next := map[], [], from;
    for i := 0 to |inputs|
      invariant Grouped(groups, order, inputs[..i]) && next == NextCursor(from, inputs[..i])
    {
      assert inputs[..i + 1] == inputs[..i] + [inputs[i]];
      NextSnoc(from, inputs[..i], inputs[i]);
      groups, order := AddToGroup(groups, order, inputs[..i], inputs[i]);
      next := Later(next, inputs[i].cursor);
    }
    assert inputs[..|inputs|] == inputs;
  }

  lemma {:induction false} InTurnFails(one: string -> Option<Parts>, ids: seq<string>, i: nat)
    requires i < |ids| && one(ids[i]).None?
    ensures InTurn(one, ids).None?
  {
    if i < |ids| - 1 { InTurnFails(one, ids[..|ids| - 1], i); }
  }

  method ConvertNamed(ctx: Context, from: Cursor, ghost inputs: seq<LogInput>, id: string, records: seq<LogInput>)
    returns (r: Option<Parts>)
    requires records == Group(id, inputs)
    ensures r == ConvertingOne(ctx, from, inputs)(id)
  {
    var batch := ConvertLogs(ctx, from, records);
    r := PartsOf(batch);
  }

  /** What converting the first `i` requests gives. */
  ghost predicate InTurnSoFar(one: string -> Option<Parts>, order: seq<string>, i: nat, parts: Parts) {
    i <= |order| && InTurn(one, order[..i]) == Some(parts)
  }

  lemma InTurnAll(one: string -> Option<Parts>, order: seq<string>, parts: Parts)
    ensures InTurnSoFar(one, order, 0, Parts(NO_FACTS, []))
    ensures InTurnSoFar(one, order, |order|, parts) ==> InTurn(one, order) == Some(parts)
  {
    assert order[..|order|] == order;
  }

  lemma InTurnNext(one: string -> Option<Parts>, order: seq<string>, i: nat, before: Parts)
    requires i < |order| && InTurnSoFar(one, order, i, before)
    ensures if one(order[i]).None? then InTurn(one, order).None?
            else InTurnSoFar(one, order, i + 1, JoinParts(before, one(order[i]).value))
  {
    InTurnSnoc(one, order[..i], order[i]);
    assert order[..i + 1] == order[..i] + [order[i]];
    if one(order[i]).None? { InTurnFails(one, order, i); }
  }

  /** Converts the requests of the window in turn, stopping at the first that fails. */
  method ConvertInTurn(
    ctx: Context, from: Cursor, ghost inputs: seq<LogInput>, groups: map<string, seq<LogInput>>, order: seq<string>)
    returns (r: Option<Parts>)
    requires Listed(groups, order, inputs)
    ensures r == ConvertEach(ctx, from, inputs, order)
  {
    ghost var one := ConvertingOne(ctx, from, inputs);
    var parts := Parts(NO_FACTS, []);
    InTurnAll(one, order, parts);
    var i := 0;
    while i < |order|
      invariant InTurnSoFar(one, order, i, parts)
    {
      var next := ConvertNamed(ctx, from, inputs, order[i], groups[order[i]]);
      InTurnNext(one, order, i, parts);
      if next.None? { return None; }
      parts := JoinParts(parts, next.value);
      i := i + 1;
    }
    InTurnAll(one, order, parts);
    r := Some(parts);
  }

  /** Converts a window request by request, as the collector does. */
  method ConvertRequests(ctx: Context, from: Cursor, inputs: seq<LogInput>) returns (r: Option<Batch>)
    ensures r == ConvertByRequest(ctx, from, inputs)
  {
    var groups, order, next := GroupInputs(from, inputs);
    GroupedListed(groups, order, inputs);
    var parts := ConvertInTurn(ctx, from, inputs, groups, order);
    if parts.None? { return None; }
    var facts := parts.value.facts;
    var batch := Batch(ctx.source, ctx.site, from, next, facts.requests, facts.attempts, parts.value.quarantines);
    var ok := Validate(batch);
    r := if ok then Some(batch) else None;
  }
}
