/**
 The collector converts a window request by request. This module proves that doing so
 gives what converting the whole window at once would give.
 */
module PerRequest {
  import opened Wrappers
  import opened Sequences
  import opened Cursors
  import opened Measurement
  import opened LogHash
  import opened Conversion
  import opened Batches

  /** Facts and quarantines collected from the named requests, or nothing once one of them fails. */
  datatype Parts = Parts(facts: Facts, quarantines: seq<QuarantineFact>)

  function JoinParts(a: Parts, b: Parts): Parts { Parts(Join(a.facts, b.facts), a.quarantines + b.quarantines) }

  function InTurn(one: string -> Option<Parts>, ids: seq<string>): Option<Parts> {
    if ids == [] then Some(Parts(NO_FACTS, []))
    else
      var before, last := InTurn(one, ids[..|ids| - 1]), one(ids[|ids| - 1]);
      if before.None? || last.None? then None else Some(JoinParts(before.value, last.value))
  }

  function PartsOf(b: Option<Batch>): Option<Parts> {
    if b.None? then None else Some(Parts(Facts(b.value.requests, b.value.attempts), b.value.quarantines))
  }

  ghost function ConvertingOne(ctx: Context, from: Cursor, inputs: seq<LogInput>): string -> Option<Parts> {
    (id: string) => PartsOf(Convert(ctx, from, Group(id, inputs)))
  }

  ghost function ConvertEach(ctx: Context, from: Cursor, inputs: seq<LogInput>, ids: seq<string>): Option<Parts> {
    InTurn(ConvertingOne(ctx, from, inputs), ids)
  }

  ghost function ConvertByRequest(ctx: Context, from: Cursor, inputs: seq<LogInput>): Option<Batch> {
    var parts := ConvertEach(ctx, from, inputs, Ids(inputs));
    if parts.None? then None
    else
      var b := Batch(ctx.source, ctx.site, from, NextCursor(from, inputs),
                     parts.value.facts.requests, parts.value.facts.attempts, parts.value.quarantines);
      if ValidBatch(b) then Some(b) else None
  }

  /** Equal up to the order of requests, attempts and quarantines. */
  ghost predicate SameBatch(a: Batch, b: Batch) {
    && a.source == b.source && a.site == b.site && a.from == b.from && a.next == b.next
    && multiset(a.requests) == multiset(b.requests)
    && multiset(a.attempts) == multiset(b.attempts)
    && multiset(a.quarantines) == multiset(b.quarantines)
  }

  // ---------- preparing one request's records is preparing the window and selecting them ----------

  lemma GroupOfRecords(id: string, inputs: seq<LogInput>)
    ensures Records(Group(id, inputs)) == Group(id, Records(inputs))
    ensures Valids(Group(id, inputs)) == Group(id, Valids(inputs))
    ensures Invalids(Group(id, inputs)) == Group(id, Invalids(inputs))
  {
    InputLeTotal();
    StableSortFilter(InputLe, OfRequest(id), inputs);
    assert forall a: LogInput, b: LogInput :: Identity(a) == Identity(b) ==> a.requestId == b.requestId by {
      forall a: LogInput, b: LogInput | Identity(a) == Identity(b) ensures a.requestId == b.requestId {
        assert Identity(a).requestId == a.requestId;
      }
    }
    DedupFilter(Identity, OfRequest(id), StableSort(InputLe, inputs));
    FilterCommutes(ValidRecord, OfRequest(id), Records(inputs));
    FilterCommutes(InvalidRecord, OfRequest(id), Records(inputs));
  }

  lemma GroupIdempotent(id: string, records: seq<LogInput>)
    ensures Group(id, Group(id, records)) == Group(id, records)
  {
    FilterMembers(OfRequest(id), records);
    forall i | 0 <= i < |Group(id, records)| ensures OfRequest(id)(Group(id, records)[i]) {
      assert Group(id, records)[i] in Group(id, records);
    }
    FilterAll(OfRequest(id), Group(id, records));
  }

  lemma OnlyElement<T>(s: seq<T>, x: T)
    requires NoDup(s) && x in s && forall i :: 0 <= i < |s| ==> s[i] == x
    ensures s == [x]
  {
    NoDupByCount(s);
    assert forall i :: 0 <= i < |s| ==> s[i] == x;
    SameElements(s, x);
  }

  lemma {:induction false} SameElements<T>(s: seq<T>, x: T)
    requires forall i :: 0 <= i < |s| ==> s[i] == x
    ensures multiset(s)[x] == |s|
  {
    if s != [] {
      SameElements(s[..|s| - 1], x);
      assert s == s[..|s| - 1] + [x];
    }
  }

  lemma SingleId(id: string, records: seq<LogInput>)
    requires Group(id, records) != []
    ensures Ids(Group(id, records)) == [id]
  {
    var g := Group(id, records);
    IdsFacts(g);
    FilterMembers(OfRequest(id), records);
    GroupIdempotent(id, records);
    forall i | 0 <= i < |Ids(g)| ensures Ids(g)[i] == id {
      var k := Ids(g)[i];
      assert k in Ids(g);
      FilterMembers(OfRequest(k), g);
      assert Group(k, g)[0] in Group(k, g);
    }
    OnlyElement(Ids(g), id);
  }

  lemma CollectOne(one: string -> Facts, id: string)
    ensures Collect(one, [id]) == one(id)
  {
    assert [id][..0] == [];
    assert Collect(one, []) == NO_FACTS;
  }

  lemma BuildAlone(ctx: Context, id: string, records: seq<LogInput>)
    ensures Build(ctx, Ids(Group(id, records)), Group(id, records)) == FactsOf(ctx, id, records)
    ensures AllStorable(ctx, Ids(Group(id, records)), Group(id, records)) <==> AllStorable(ctx, [id], records)
  {
    var g := Group(id, records);
    if g == [] {
      assert Ids(g) == [];
    } else {
      SingleId(id, records);
      GroupIdempotent(id, records);
      CollectOne(PerId(ctx, g), id);
      assert PerId(ctx, g)(id) == FactsOf(ctx, id, g);
    }
  }

  /** What converting one request contributes. */
  lemma ConvertOne(ctx: Context, from: Cursor, id: string, inputs: seq<LogInput>)
    ensures var c := Convert(ctx, from, Group(id, inputs));
            && (c.Some? ==>
                  && Facts(c.value.requests, c.value.attempts) == FactsOf(ctx, id, Valids(inputs))
                  && c.value.quarantines == Map(Quarantined(ctx), Group(id, Invalids(inputs))))
            && (c.Some? <==>
                  && Acceptable(ctx, from, Group(id, inputs))
                  && AllStorable(ctx, [id], Valids(inputs))
                  && NoDup(Map(CursorOf, Group(id, Invalids(inputs)))))
  {
    GroupOfRecords(id, inputs);
    BuildAlone(ctx, id, Valids(inputs));
    ConvertSucceeds(ctx, from, Group(id, inputs));
    AllGroups(ctx, Group(id, Valids(inputs)));
  }

  // ---------- the order of the request names does not matter ----------

  ghost predicate SameFacts(a: Facts, b: Facts) {
    multiset(a.requests) == multiset(b.requests) && multiset(a.attempts) == multiset(b.attempts)
  }

  lemma {:induction false} CollectConcat(one: string -> Facts, a: seq<string>, b: seq<string>)
    ensures Collect(one, a + b) == Join(Collect(one, a), Collect(one, b))
  {
    if b == [] {
      assert a + b == a;
    } else {
      var n := |b| - 1;
      assert (a + b)[..|a + b| - 1] == a + b[..n];
      CollectConcat(one, a, b[..n]);
    }
  }

  lemma CollectSplit(one: string -> Facts, left: seq<string>, id: string, right: seq<string>)
    ensures SameFacts(Collect(one, left + [id] + right), Join(Collect(one, left + right), one(id)))
  {
    CollectConcat(one, left + [id], right);
    CollectConcat(one, left, [id]);
    CollectConcat(one, left, right);
    CollectOne(one, id);
  }

  lemma CollectDrop(one: string -> Facts, ids: seq<string>, id: string)
    ensures Collect(one, ids + [id]) == Join(Collect(one, ids), one(id))
    ensures one(id) == NO_FACTS ==> Collect(one, ids + [id]) == Collect(one, ids)
  {
    assert (ids + [id])[..|ids|] == ids;
  }

  lemma CollectMoved(one: string -> Facts, before: seq<string>, id: string, left: seq<string>, right: seq<string>)
    requires SameFacts(Collect(one, before), Collect(one, left + right))
    ensures SameFacts(Collect(one, before + [id]), Collect(one, left + [id] + right))
  {
    CollectDrop(one, before, id);
    CollectSplit(one, left, id, right);
  }

  ghost predicate Agree(one: string -> Facts, a: seq<string>, b: seq<string>) {
    NoDup(a) && NoDup(b) && forall id :: one(id) != NO_FACTS ==> (id in a <==> id in b)
  }

  lemma DropIdle(one: string -> Facts, a: seq<string>, id: string, b: seq<string>)
    requires one(id) == NO_FACTS
    requires Agree(one, a + [id], b)
    ensures Agree(one, a, b)
  {
    var s := a + [id];
    assert forall i :: 0 <= i < |a| ==> s[i] == a[i];
    forall i, j | 0 <= i < j < |a| ensures a[i] != a[j] { assert s[i] != s[j]; }
    assert forall x :: x in s <==> x in a || x == id;
  }

  lemma DropShared(one: string -> Facts, a: seq<string>, id: string, b: seq<string>, k: nat)
    requires Agree(one, a + [id], b) && k < |b| && b[k] == id
    ensures Agree(one, a, b[..k] + b[k + 1..])
  {
    var s := a + [id];
    assert forall i :: 0 <= i < |a| ==> s[i] == a[i];
    forall i, j | 0 <= i < j < |a| ensures a[i] != a[j] { assert s[i] != s[j]; }
    assert id !in a by {
      forall i | 0 <= i < |a| ensures a[i] != id { assert s[i] != s[|a|]; }
    }
    assert forall x :: x in s <==> x in a || x == id;
    RemovedName(b, k);
  }

  lemma {:induction false} CollectIdle(one: string -> Facts, ids: seq<string>)
    requires forall i :: 0 <= i < |ids| ==> one(ids[i]) == NO_FACTS
    ensures Collect(one, ids) == NO_FACTS
  {
    if ids != [] { CollectIdle(one, ids[..|ids| - 1]); }
  }

  lemma AgreeEmpty(one: string -> Facts, b: seq<string>)
    requires Agree(one, [], b)
    ensures forall i :: 0 <= i < |b| ==> one(b[i]) == NO_FACTS
  {
    assert forall i :: 0 <= i < |b| ==> b[i] in b;
  }

  lemma SharedName(one: string -> Facts, a: seq<string>, id: string, b: seq<string>) returns (k: nat)
    requires Agree(one, a + [id], b) && one(id) != NO_FACTS
    ensures k < |b| && b[k] == id && b == b[..k] + [id] + b[k + 1..]
  {
    assert (a + [id])[|a|] == id;
    k :| 0 <= k < |b| && b[k] == id;
  }

  /** Duplicate-free name lists that agree on the contributing names collect the same facts. */
  lemma {:induction false} CollectReordered(one: string -> Facts, a: seq<string>, b: seq<string>)
    requires Agree(one, a, b)
    ensures SameFacts(Collect(one, a), Collect(one, b))
    decreases |a|
  {
    if a == [] {
      AgreeEmpty(one, b);
      CollectIdle(one, b);
    } else {
      var before, id := a[..|a| - 1], a[|a| - 1];
      assert a == before + [id];
      if one(id) == NO_FACTS {
        CollectDrop(one, before, id);
        DropIdle(one, before, id, b);
        CollectReordered(one, before, b);
      } else {
        var k := SharedName(one, before, id, b);
        DropShared(one, before, id, b, k);
        CollectReordered(one, before, b[..k] + b[k + 1..]);
        CollectMoved(one, before, id, b[..k], b[k + 1..]);
      }
    }
  }

  lemma BuildReordered(ctx: Context, a: seq<string>, b: seq<string>, records: seq<LogInput>)
    requires NoDup(a) && NoDup(b)
    requires forall id :: Group(id, records) != [] ==> (id in a <==> id in b)
    ensures SameFacts(Build(ctx, a, records), Build(ctx, b, records))
  {
    forall id | PerId(ctx, records)(id) != NO_FACTS ensures id in a <==> id in b {
      assert FactsOf(ctx, id, records) != NO_FACTS;
    }
    CollectReordered(PerId(ctx, records), a, b);
  }

  lemma RemovedName(b: seq<string>, k: nat)
    requires NoDup(b) && k < |b|
    ensures var rest := b[..k] + b[k + 1..];
            NoDup(rest) && forall id :: id in rest <==> id in b && id != b[k]
  {
    var rest := b[..k] + b[k + 1..];
    assert forall i :: 0 <= i < |rest| ==> rest[i] == if i < k then b[i] else b[i + 1];
    forall id | id in b && id != b[k] ensures id in rest {
      var i :| 0 <= i < |b| && b[i] == id;
      assert rest[if i < k then i else i - 1] == id;
    }
  }

  // ---------- quarantines ----------

  /** The records of each name in turn. */
  function Regroup(ids: seq<string>, records: seq<LogInput>): seq<LogInput> {
    if ids == [] then [] else Regroup(ids[..|ids| - 1], records) + Group(ids[|ids| - 1], records)
  }

  lemma GroupSnoc(id: string, records: seq<LogInput>, r: LogInput)
    ensures Group(id, records + [r]) == if r.requestId == id then Group(id, records) + [r] else Group(id, records)
  {
    FilterSnoc(OfRequest(id), records, r);
  }

  lemma {:induction false} RegroupSnoc(ids: seq<string>, records: seq<LogInput>, r: LogInput)
    requires NoDup(ids)
    ensures multiset(Regroup(ids, records + [r])) ==
            multiset(Regroup(ids, records)) + if r.requestId in ids then multiset{r} else multiset{}
  {
    if ids != [] {
      var before, id := ids[..|ids| - 1], ids[|ids| - 1];
      assert ids == before + [id] && id !in before;
      RegroupSnoc(before, records, r);
      GroupSnoc(id, records, r);
      assert r.requestId in ids <==> r.requestId in before || r.requestId == id;
    }
  }

  lemma {:induction false} RegroupEmpty(ids: seq<string>)
    ensures Regroup(ids, []) == []
  {
    if ids != [] { RegroupEmpty(ids[..|ids| - 1]); }
  }

  /** Regrouping loses nothing and repeats nothing. */
  lemma {:induction false} RegroupComplete(ids: seq<string>, records: seq<LogInput>)
    requires NoDup(ids) && forall r <- records :: r.requestId in ids
    ensures multiset(Regroup(ids, records)) == multiset(records)
  {
    if records == [] {
      RegroupEmpty(ids);
    } else {
      var n := |records| - 1;
      assert records == records[..n] + [records[n]];
      assert records[n] in records;
      RegroupComplete(ids, records[..n]);
      RegroupSnoc(ids, records[..n], records[n]);
    }
  }

  lemma SubsequenceNoDup<T>(a: seq<T>, b: seq<T>)
    requires NoDup(a + b)
    ensures NoDup(a) && NoDup(b)
  {
    var s := a + b;
    assert forall i :: 0 <= i < |a| ==> s[i] == a[i];
    assert forall i :: 0 <= i < |b| ==> s[|a| + i] == b[i];
    forall i, j | 0 <= i < j < |b| ensures b[i] != b[j] { assert s[|a| + i] != s[|a| + j]; }
    forall i, j | 0 <= i < j < |a| ensures a[i] != a[j] { assert s[i] != s[j]; }
  }

  lemma {:induction false} RegroupDistinct(ids: seq<string>, records: seq<LogInput>)
    requires NoDup(Map(CursorOf, Regroup(ids, records)))
    ensures forall id <- ids :: NoDup(Map(CursorOf, Group(id, records)))
  {
    if ids != [] {
      var n := |ids| - 1;
      MapConcat(CursorOf, Regroup(ids[..n], records), Group(ids[n], records));
      SubsequenceNoDup(Map(CursorOf, Regroup(ids[..n], records)), Map(CursorOf, Group(ids[n], records)));
      RegroupDistinct(ids[..n], records);
      assert ids == ids[..n] + [ids[n]];
    }
  }

  // ---------- the collector's conversion ----------

  ghost predicate EachConverts(ctx: Context, from: Cursor, inputs: seq<LogInput>, ids: seq<string>) {
    && AllStorable(ctx, ids, Valids(inputs))
    && forall id <- ids :: Converting(ctx, from, inputs, id)
  }

  ghost predicate Converting(ctx: Context, from: Cursor, inputs: seq<LogInput>, id: string) {
    Acceptable(ctx, from, Group(id, inputs)) && NoDup(Map(CursorOf, Group(id, Invalids(inputs))))
  }

  lemma EachConvertsSnoc(ctx: Context, from: Cursor, inputs: seq<LogInput>, ids: seq<string>, id: string)
    ensures EachConverts(ctx, from, inputs, ids + [id]) <==>
            EachConverts(ctx, from, inputs, ids) && Convert(ctx, from, Group(id, inputs)).Some?
  {
    ConvertOne(ctx, from, id, inputs);
    assert forall k :: k in ids + [id] <==> k in ids || k == id;
    assert forall k :: k in [id] <==> k == id;
    assert (forall k <- ids + [id] :: Converting(ctx, from, inputs, k)) <==>
           (forall k <- ids :: Converting(ctx, from, inputs, k)) && Converting(ctx, from, inputs, id);
  }

  lemma InTurnSnoc(one: string -> Option<Parts>, ids: seq<string>, id: string)
    ensures InTurn(one, ids + [id]) ==
            if InTurn(one, ids).None? || one(id).None? then None
            else Some(JoinParts(InTurn(one, ids).value, one(id).value))
  {
    assert (ids + [id])[..|ids|] == ids;
  }

  lemma ConvertEachSnoc(ctx: Context, from: Cursor, inputs: seq<LogInput>, ids: seq<string>, id: string)
    requires ConvertEach(ctx, from, inputs, ids).Some? ==>
               && ConvertEach(ctx, from, inputs, ids).value.facts == Build(ctx, ids, Valids(inputs))
               && ConvertEach(ctx, from, inputs, ids).value.quarantines == Map(Quarantined(ctx), Regroup(ids, Invalids(inputs)))
    ensures var c := ConvertEach(ctx, from, inputs, ids + [id]);
            && (c.Some? <==> ConvertEach(ctx, from, inputs, ids).Some? && Convert(ctx, from, Group(id, inputs)).Some?)
            && (c.Some? ==>
                  && c.value.facts == Build(ctx, ids + [id], Valids(inputs))
                  && c.value.quarantines == Map(Quarantined(ctx), Regroup(ids + [id], Invalids(inputs))))
  {
    assert (ids + [id])[..|ids|] == ids;
    InTurnSnoc(ConvertingOne(ctx, from, inputs), ids, id);
    assert ConvertingOne(ctx, from, inputs)(id) == PartsOf(Convert(ctx, from, Group(id, inputs)));
    ConvertOne(ctx, from, id, inputs);
    CollectDrop(PerId(ctx, Valids(inputs)), ids, id);
    assert PerId(ctx, Valids(inputs))(id) == FactsOf(ctx, id, Valids(inputs));
    MapConcat(Quarantined(ctx), Regroup(ids, Invalids(inputs)), Group(id, Invalids(inputs)));
  }

  lemma {:induction false} ConvertEachFacts(ctx: Context, from: Cursor, inputs: seq<LogInput>, ids: seq<string>)
    ensures var c := ConvertEach(ctx, from, inputs, ids);
            && (c.Some? <==> EachConverts(ctx, from, inputs, ids))
            && (c.Some? ==>
                  && c.value.facts == Build(ctx, ids, Valids(inputs))
                  && c.value.quarantines == Map(Quarantined(ctx), Regroup(ids, Invalids(inputs))))
  {
    if ids != [] {
      var n := |ids| - 1;
      assert ids == ids[..n] + [ids[n]];
      ConvertEachFacts(ctx, from, inputs, ids[..n]);
      ConvertEachSnoc(ctx, from, inputs, ids[..n], ids[n]);
      EachConvertsSnoc(ctx, from, inputs, ids[..n], ids[n]);
    }
  }

  lemma AcceptablePieces(ctx: Context, from: Cursor, inputs: seq<LogInput>)
    requires ctx.source != DirectProbe && ctx.site != NIL && (from.IsZero() || from.Valid())
    ensures CursorsValid(inputs) <==> forall id <- Ids(inputs) :: CursorsValid(Group(id, inputs))
  {
    IdsFacts(inputs);
    if CursorsValid(inputs) {
      forall id | id in Ids(inputs) ensures CursorsValid(Group(id, inputs)) {
        FilterMembers(OfRequest(id), inputs);
        forall i | 0 <= i < |Group(id, inputs)| ensures Group(id, inputs)[i].cursor.Valid() {
          assert Group(id, inputs)[i] in inputs;
        }
      }
    }
    if forall id <- Ids(inputs) :: CursorsValid(Group(id, inputs)) {
      forall i | 0 <= i < |inputs| ensures inputs[i].cursor.Valid() {
        var id := inputs[i].requestId;
        FilterMembers(OfRequest(id), inputs);
        assert inputs[i] in Group(id, inputs);
        assert id in Ids(inputs);
        var k :| 0 <= k < |Group(id, inputs)| && Group(id, inputs)[k] == inputs[i];
        assert CursorsValid(Group(id, inputs));
      }
    }
  }

  lemma RegroupedInvalids(inputs: seq<LogInput>)
    ensures multiset(Regroup(Ids(inputs), Invalids(inputs))) == multiset(Invalids(inputs))
    ensures NoDup(Map(CursorOf, Regroup(Ids(inputs), Invalids(inputs)))) <==> NoDup(Map(CursorOf, Invalids(inputs)))
  {
    IdsFacts(inputs);
    RecordsSubset(inputs);
    FilterMembers(InvalidRecord, Records(inputs));
    forall r | r in Invalids(inputs) ensures r.requestId in Ids(inputs) {
      FilterMembers(OfRequest(r.requestId), inputs);
      assert r in Group(r.requestId, inputs);
    }
    RegroupComplete(Ids(inputs), Invalids(inputs));
    MapMultiset(CursorOf, Regroup(Ids(inputs), Invalids(inputs)), Invalids(inputs));
    NoDupPermutation(Map(CursorOf, Regroup(Ids(inputs), Invalids(inputs))), Map(CursorOf, Invalids(inputs)));
  }

  lemma SameNames(inputs: seq<LogInput>)
    ensures forall id :: Group(id, Valids(inputs)) != [] ==> id in Ids(inputs) && id in Ids(Valids(inputs))
    ensures NoDup(Ids(inputs)) && NoDup(Ids(Valids(inputs)))
  {
    IdsFacts(inputs);
    IdsFacts(Valids(inputs));
    forall id | Group(id, Valids(inputs)) != [] ensures id in Ids(inputs) {
      NameOccurs(id, inputs);
    }
  }

  lemma NameOccurs(id: string, inputs: seq<LogInput>)
    requires Group(id, Valids(inputs)) != []
    ensures Group(id, inputs) != []
  {
    var r := Group(id, Valids(inputs))[0];
    FilterMembers(OfRequest(id), Valids(inputs));
    FilterMembers(ValidRecord, Records(inputs));
    RecordsSubset(inputs);
    FilterMembers(OfRequest(id), inputs);
    assert r in Group(id, Valids(inputs));
    assert r in Group(id, inputs);
  }

  lemma NextCursors(ctx: Context, from: Cursor, inputs: seq<LogInput>)
    requires Acceptable(ctx, from, inputs)
    ensures NextCursor(from, inputs) == NextCursor(from, Records(inputs))
  {
    RecordsSubset(inputs);
    AcceptedRecords(ctx, from, inputs);
    forall r | r in inputs ensures exists q <- Records(inputs) :: q.cursor == r.cursor {
      var k := RecordsCover(inputs, r);
      assert Identity(k).cursor == k.cursor && Identity(r).cursor == r.cursor;
    }
    NextCursorSame(from, inputs, Records(inputs));
  }

  lemma PiecesAgree(ctx: Context, from: Cursor, inputs: seq<LogInput>)
    requires Acceptable(ctx, from, inputs)
    ensures EachConverts(ctx, from, inputs, Ids(inputs)) && NoDup(Map(CursorOf, Invalids(inputs))) <==>
            Convertible(ctx, from, inputs)
  {
    SameNames(inputs);
    AcceptablePieces(ctx, from, inputs);
    RegroupedInvalids(inputs);
    if NoDup(Map(CursorOf, Invalids(inputs))) { RegroupDistinct(Ids(inputs), Invalids(inputs)); }
  }

  lemma CollectedValid(ctx: Context, from: Cursor, inputs: seq<LogInput>)
    requires Acceptable(ctx, from, inputs) && AllStorable(ctx, Ids(inputs), Valids(inputs))
    ensures var f := Build(ctx, Ids(inputs), Valids(inputs));
            ValidBatch(Batch(ctx.source, ctx.site, from, NextCursor(from, inputs), f.requests, f.attempts,
                             Map(Quarantined(ctx), Regroup(Ids(inputs), Invalids(inputs)))))
            <==> NoDup(Map(CursorOf, Invalids(inputs)))
  {
    NextCursors(ctx, from, inputs);
    RegroupedInvalids(inputs);
    AcceptedRecords(ctx, from, inputs);
    MultisetMembers(Regroup(Ids(inputs), Invalids(inputs)), Invalids(inputs));
    IdsFacts(inputs);
    BatchValid(ctx, from, inputs, Ids(inputs), Regroup(Ids(inputs), Invalids(inputs)));
  }

  lemma ByRequestSucceeds(ctx: Context, from: Cursor, inputs: seq<LogInput>)
    requires ctx.source != DirectProbe
    ensures ConvertByRequest(ctx, from, inputs).Some? <==> Convertible(ctx, from, inputs)
  {
    ConvertEachFacts(ctx, from, inputs, Ids(inputs));
    if ctx.site != NIL && (from.IsZero() || from.Valid()) {
      AcceptablePieces(ctx, from, inputs);
      if CursorsValid(inputs) {
        PiecesAgree(ctx, from, inputs);
        if EachConverts(ctx, from, inputs, Ids(inputs)) { CollectedValid(ctx, from, inputs); }
      }
    }
  }

  /**
   Converting request by request succeeds exactly when converting the whole window does,
   and then gives the same batch up to order.
   */
  lemma ByRequestAgrees(ctx: Context, from: Cursor, inputs: seq<LogInput>)
    requires ctx.source != DirectProbe
    ensures ConvertByRequest(ctx, from, inputs).Some? <==> Convert(ctx, from, inputs).Some?
    ensures Convert(ctx, from, inputs).Some? ==>
              SameBatch(ConvertByRequest(ctx, from, inputs).value, Convert(ctx, from, inputs).value)
  {
    ByRequestSucceeds(ctx, from, inputs);
    ConvertSucceeds(ctx, from, inputs);
    if Convertible(ctx, from, inputs) {
      ConvertEachFacts(ctx, from, inputs, Ids(inputs));
      NextCursors(ctx, from, inputs);
      SameNames(inputs);
      BuildReordered(ctx, Ids(inputs), Ids(Valids(inputs)), Valids(inputs));
      RegroupedInvalids(inputs);
      MapMultiset(Quarantined(ctx), Regroup(Ids(inputs), Invalids(inputs)), Invalids(inputs));
    }
  }
}
