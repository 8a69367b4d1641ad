/** From a window of log records to a batch: sort, deduplicate, set invalid records aside, group, convert. */
module Batches {
  import opened Wrappers
  import opened Sequences
  import opened Cursors
  import opened Measurement
  import opened LogHash
  import opened Conversion

  predicate InputLe(a: LogInput, b: LogInput) { CursorLe(a.cursor, b.cursor) }

  function RequestId(r: LogInput): string { r.requestId }

  function CursorOf(r: LogInput): Cursor { r.cursor }

  function OfRequest(id: string): LogInput -> bool { (r: LogInput) => r.requestId == id }

  function Quarantined(ctx: Context): LogInput -> QuarantineFact {
    (r: LogInput) => Quarantine(ctx, r.cursor, InvalidReason(r))
  }

  lemma InputLeTotal()
    ensures TotalPreorder(InputLe)
  {
    forall x: LogInput, y: LogInput ensures InputLe(x, y) || InputLe(y, x) {
      CompareLaws(x.cursor, y.cursor);
    }
    forall x: LogInput, y: LogInput, z: LogInput | InputLe(x, y) && InputLe(y, z) ensures InputLe(x, z) {
      CursorLeTransitive(x.cursor, y.cursor, z.cursor);
    }
  }

  /** The distinct records of a window in cursor order. */
  function Records(inputs: seq<LogInput>): seq<LogInput> { Dedup(Identity, StableSort(InputLe, inputs)) }

  function Valids(inputs: seq<LogInput>): seq<LogInput> { Filter(ValidRecord, Records(inputs)) }

  function Invalids(inputs: seq<LogInput>): seq<LogInput> { Filter(InvalidRecord, Records(inputs)) }

  /** Request identifiers in order of first appearance. */
  function Ids(records: seq<LogInput>): seq<string> { Map(RequestId, Dedup(RequestId, records)) }

  function Group(id: string, records: seq<LogInput>): seq<LogInput> { Filter(OfRequest(id), records) }

  datatype Facts = Facts(requests: seq<RequestFact>, attempts: seq<AttemptFact>)

  const NO_FACTS := Facts([], [])

  function Join(a: Facts, b: Facts): Facts { Facts(a.requests + b.requests, a.attempts + b.attempts) }

  /** The facts each name contributes, in order. */
  function Collect(one: string -> Facts, ids: seq<string>): Facts {
    if ids == [] then NO_FACTS else Join(Collect(one, ids[..|ids| - 1]), one(ids[|ids| - 1]))
  }

  /** The facts of one request; a name without records contributes nothing. */
  function FactsOf(ctx: Context, id: string, records: seq<LogInput>): Facts {
    var g := Group(id, records);
    if g == [] then NO_FACTS else Facts([Request(ctx, g)], AllAttempts(ctx, g))
  }

  function PerId(ctx: Context, records: seq<LogInput>): string -> Facts {
    (id: string) => FactsOf(ctx, id, records)
  }

  function Build(ctx: Context, ids: seq<string>, records: seq<LogInput>): Facts { Collect(PerId(ctx, records), ids) }

  function NextCursor(from: Cursor, records: seq<LogInput>): Cursor {
    if records == [] then from
    else Later(NextCursor(from, records[..|records| - 1]), records[|records| - 1].cursor)
  }

  predicate CursorsValid(inputs: seq<LogInput>) { forall i :: 0 <= i < |inputs| ==> inputs[i].cursor.Valid() }

  predicate Acceptable(ctx: Context, from: Cursor, inputs: seq<LogInput>) {
    ctx.source != DirectProbe && ctx.site != NIL && (from.IsZero() || from.Valid()) && CursorsValid(inputs)
  }

  function Assemble(ctx: Context, from: Cursor, inputs: seq<LogInput>): Batch {
    var facts := Build(ctx, Ids(Valids(inputs)), Valids(inputs));
    Batch(ctx.source, ctx.site, from, NextCursor(from, Records(inputs)),
          facts.requests, facts.attempts, Map(Quarantined(ctx), Invalids(inputs)))
  }

  /** Whole-window conversion: the assembled batch, provided it passes validation. */
  ghost function Convert(ctx: Context, from: Cursor, inputs: seq<LogInput>): Option<Batch> {
    if Acceptable(ctx, from, inputs) && ValidBatch(Assemble(ctx, from, inputs))
    then Some(Assemble(ctx, from, inputs)) else None
  }

  /**
   When a window converts: scope and cursors are sound, the evidence of every request can be
   stored, and no two distinct invalid records share a cursor.
   */
  ghost predicate Convertible(ctx: Context, from: Cursor, inputs: seq<LogInput>) {
    && Acceptable(ctx, from, inputs)
    && (forall id :: Group(id, Valids(inputs)) != [] ==> GroupStorable(Group(id, Valids(inputs))))
    && NoDup(Map(CursorOf, Invalids(inputs)))
  }

  // ---------- order and membership of the prepared records ----------

  lemma MultisetMembers<T>(a: seq<T>, b: seq<T>)
    requires multiset(a) == multiset(b)
    ensures forall x :: x in a <==> x in b
  {
    assert forall x :: x in a <==> x in multiset(a);
    assert forall x :: x in b <==> x in multiset(b);
  }

  lemma AppendSorted(s: seq<LogInput>, kept: seq<LogInput>)
    requires s != [] && Sorted(InputLe, s) && Sorted(InputLe, kept)
    requires forall r <- kept :: r in s[..|s| - 1]
    ensures Sorted(InputLe, kept + [s[|s| - 1]])
  {
    var n := |s| - 1;
    forall i | 0 <= i < |kept| ensures InputLe(kept[i], s[n]) {
      assert kept[i] in kept;
      var k :| 0 <= k < n && s[..n][k] == kept[i];
      assert InputLe(s[k], s[n]);
    }
  }

  lemma {:induction false} DedupSorted(s: seq<LogInput>)
    requires Sorted(InputLe, s)
    ensures Sorted(InputLe, Dedup(Identity, s))
  {
    if s != [] {
      DedupSorted(s[..|s| - 1]);
      DedupMembers(Identity, s[..|s| - 1]);
      AppendSorted(s, Dedup(Identity, s[..|s| - 1]));
    }
  }

  lemma {:induction false} FilterSorted(p: LogInput -> bool, s: seq<LogInput>)
    requires Sorted(InputLe, s)
    ensures Sorted(InputLe, Filter(p, s))
  {
    if s != [] {
      FilterSorted(p, s[..|s| - 1]);
      FilterMembers(p, s[..|s| - 1]);
      AppendSorted(s, Filter(p, s[..|s| - 1]));
    }
  }

  lemma RecordsSorted(inputs: seq<LogInput>)
    ensures Sorted(InputLe, Records(inputs))
  {
    InputLeTotal();
    StableSortSorted(InputLe, inputs);
    DedupSorted(StableSort(InputLe, inputs));
  }

  lemma RecordsSubset(inputs: seq<LogInput>)
    ensures forall r <- Records(inputs) :: r in inputs
  {
    var s := StableSort(InputLe, inputs);
    DedupMembers(Identity, s);
    MultisetMembers(s, inputs);
  }

  /** Deduplication drops no record whose identity is not already there. */
  lemma RecordsCover(inputs: seq<LogInput>, r: LogInput) returns (k: LogInput)
    requires r in inputs
    ensures k in Records(inputs) && Identity(k) == Identity(r)
  {
    var s := StableSort(InputLe, inputs);
    MultisetMembers(s, inputs);
    DedupMembers(Identity, s);
    KeysMembers(Identity, s);
    KeysMembers(Identity, Records(inputs));
    assert Identity(r) in Keys(Identity, Records(inputs));
    var i :| 0 <= i < |Records(inputs)| && Identity(Records(inputs)[i]) == Identity(r);
    k := Records(inputs)[i];
  }

  lemma IdsFacts(records: seq<LogInput>)
    ensures NoDup(Ids(records))
    ensures forall id :: id in Ids(records) <==> Group(id, records) != []
  {
    DedupDistinctKeys(RequestId, records);
    DedupMembers(RequestId, records);
    KeysMembers(RequestId, records);
    var d := Dedup(RequestId, records);
    KeysMembers(RequestId, d);
    forall id ensures id in Ids(records) <==> Group(id, records) != [] {
      FilterMembers(OfRequest(id), records);
      if id in Ids(records) {
        var i :| 0 <= i < |d| && Ids(records)[i] == id;
        assert d[i] in records && d[i] in Group(id, records);
      }
      if Group(id, records) != [] {
        var r := Group(id, records)[0];
        assert r in records && RequestId(r) in Keys(RequestId, d);
        var i :| 0 <= i < |d| && RequestId(d[i]) == id;
        assert Ids(records)[i] == id;
      }
    }
  }

  ghost predicate Prepared(records: seq<LogInput>) {
    && Sorted(InputLe, records)
    && forall r <- records :: ValidRecord(r) && r.cursor.Valid()
  }

  lemma ValidsPrepared(inputs: seq<LogInput>)
    requires CursorsValid(inputs)
    ensures Prepared(Valids(inputs))
  {
    RecordsSorted(inputs);
    RecordsSubset(inputs);
    FilterSorted(ValidRecord, Records(inputs));
    FilterMembers(ValidRecord, Records(inputs));
  }

  lemma GroupIsGroup(id: string, records: seq<LogInput>)
    requires Prepared(records) && Group(id, records) != []
    ensures IsGroup(Group(id, records), id)
  {
    FilterSorted(OfRequest(id), records);
    FilterMembers(OfRequest(id), records);
    forall i, j | 0 <= i < j < |Group(id, records)|
      ensures CursorLe(Group(id, records)[i].cursor, Group(id, records)[j].cursor)
    {
      assert InputLe(Group(id, records)[i], Group(id, records)[j]);
    }
  }

  // ---------- the batch is structurally sound by construction ----------

  /** Requests and attempts of the named identifiers, each tied to its own. */
  ghost predicate Structured(ctx: Context, ids: seq<string>, f: Facts) {
    && RequestsDistinct(f.requests) && AttemptsDistinct(f.attempts)
    && (forall r <- f.requests :: r.source == ctx.source && r.site == ctx.site && r.requestId in ids &&
          r.requestHash == RequestDigest(ctx.source, ctx.site, r.requestId))
    && (forall a <- f.attempts :: a.source == ctx.source && a.site == ctx.site && a.requestId in ids &&
          a.requestHash == RequestDigest(ctx.source, ctx.site, a.requestId) &&
          QuotesRequest(a, a.requestId) && Belongs(a, f.requests))
    && (forall r <- f.requests :: Complete(r, f.attempts))
  }

  lemma OrdinalsConcat(a: seq<AttemptFact>, b: seq<AttemptFact>, h: Digest)
    ensures Ordinals(a + b, h) == Ordinals(a, h) + Ordinals(b, h)
  {
    forall k | k in Ordinals(b, h) ensures k in Ordinals(a + b, h) {
      var i :| 0 <= i < |b| && b[i].requestHash == h && b[i].ordinal == k;
      assert (a + b)[|a| + i] == b[i];
    }
    forall k | k in Ordinals(a, h) ensures k in Ordinals(a + b, h) {
      var i :| 0 <= i < |a| && a[i].requestHash == h && a[i].ordinal == k;
      assert (a + b)[i] == a[i];
    }
  }

  lemma OrdinalsElsewhere(a: seq<AttemptFact>, h: Digest)
    requires forall x <- a :: x.requestHash != h
    ensures Ordinals(a, h) == {}
  {
    assert forall i :: 0 <= i < |a| ==> a[i] in a;
  }

  lemma CompleteConcat(r: RequestFact, a: seq<AttemptFact>, b: seq<AttemptFact>)
    requires Complete(r, a) && forall x <- b :: x.requestHash != r.requestHash
    ensures Complete(r, a + b) && Complete(r, b + a)
  {
    OrdinalsConcat(a, b, r.requestHash);
    OrdinalsConcat(b, a, r.requestHash);
    OrdinalsElsewhere(b, r.requestHash);
    assert forall i :: 0 <= i < |b| ==> b[i] in b;
    assert forall i :: 0 <= i < |b + a| ==> (b + a)[i] == if i < |b| then b[i] else a[i - |b|];
  }

  lemma AppendDistinct(ids: seq<string>, id: string, a: seq<AttemptFact>, b: seq<AttemptFact>)
    requires id !in ids && AttemptsDistinct(a) && AttemptsDistinct(b)
    requires forall x <- a :: x.requestId in ids && Own(x)
    requires forall x <- b :: x.requestId == id && Own(x)
    ensures AttemptsDistinct(a + b)
  {
    var s := a + b;
    forall i, j | 0 <= i < j < |s|
      ensures s[i].sourceHash != s[j].sourceHash
      ensures s[i].requestHash == s[j].requestHash ==> s[i].ordinal != s[j].ordinal
    {
      if i < |a| <= j {
        assert s[i] in a && s[j] in b;
      } else if |a| <= i {
        assert s[i] == b[i - |a|] && s[j] == b[j - |a|];
      }
    }
  }

  /** Both hashes of the attempt quote its own request identifier. */
  predicate Own(a: AttemptFact) {
    QuotesRequest(a, a.requestId) && a.requestHash.RequestDigest? && a.requestHash.requestId == a.requestId
  }

  /** The facts of exactly one request. */
  ghost predicate Fragment(ctx: Context, id: string, f: Facts) {
    && |f.requests| == 1 && f.requests[0].requestId == id
    && Structured(ctx, [id], f)
  }

  lemma FactsOfFragment(ctx: Context, id: string, records: seq<LogInput>)
    requires Prepared(records) && Group(id, records) != []
    ensures Fragment(ctx, id, FactsOf(ctx, id, records))
  {
    var g := Group(id, records);
    GroupIsGroup(id, records);
    GroupComplete(ctx, id, g);
    forall i | 0 <= i < |AllAttempts(ctx, g)| ensures Identified(ctx, AllAttempts(ctx, g)[i], id, i) {
      AttemptIdentified(ctx, id, g, i);
    }
    FragmentFrom(ctx, id, Request(ctx, g), AllAttempts(ctx, g));
  }

  lemma FragmentFrom(ctx: Context, id: string, r: RequestFact, attempts: seq<AttemptFact>)
    requires r.source == ctx.source && r.site == ctx.site && r.requestId == id
    requires r.requestHash == RequestDigest(ctx.source, ctx.site, id) && Complete(r, attempts)
    requires forall i :: 0 <= i < |attempts| ==> Identified(ctx, attempts[i], id, i)
    ensures Fragment(ctx, id, Facts([r], attempts))
  {
    assert [r][0] == r && id in [id];
    forall x | x in attempts ensures Belongs(x, [r]) {
      var i :| 0 <= i < |attempts| && attempts[i] == x;
      assert Identified(ctx, attempts[i], id, i);
    }
  }

  lemma JoinComplete(ctx: Context, ids: seq<string>, f: Facts, id: string, g: Facts)
    requires Structured(ctx, ids, f) && id !in ids && Fragment(ctx, id, g)
    ensures forall r <- f.requests + g.requests :: Complete(r, f.attempts + g.attempts)
  {
    forall r | r in f.requests + g.requests ensures Complete(r, f.attempts + g.attempts) {
      if r in f.requests {
        assert r.requestId != id;
        forall x | x in g.attempts ensures x.requestHash != r.requestHash {
          assert x.requestId == id;
        }
        CompleteConcat(r, f.attempts, g.attempts);
      } else {
        assert r in g.requests;
        forall x | x in f.attempts ensures x.requestHash != r.requestHash {
          assert x.requestId in ids;
        }
        CompleteConcat(r, g.attempts, f.attempts);
      }
    }
  }

  lemma JoinBelongs(a: AttemptFact, p: seq<RequestFact>, q: seq<RequestFact>)
    requires Belongs(a, p) || Belongs(a, q)
    ensures Belongs(a, p + q)
  {
    if Belongs(a, p) {
      var k :| 0 <= k < |p| && p[k].requestHash == a.requestHash && p[k].requestId == a.requestId;
      assert (p + q)[k] == p[k];
    } else {
      var k :| 0 <= k < |q| && q[k].requestHash == a.requestHash && q[k].requestId == a.requestId;
      assert (p + q)[|p| + k] == q[k];
    }
  }

  lemma JoinStructured(ctx: Context, ids: seq<string>, f: Facts, id: string, g: Facts)
    requires Structured(ctx, ids, f) && id !in ids && Fragment(ctx, id, g)
    ensures Structured(ctx, ids + [id], Join(f, g))
  {
    JoinComplete(ctx, ids, f, id, g);
    AppendDistinct(ids, id, f.attempts, g.attempts);
    forall x | x in f.attempts + g.attempts ensures Belongs(x, f.requests + g.requests) {
      JoinBelongs(x, f.requests, g.requests);
    }
    var s := f.requests + g.requests;
    forall i, j | 0 <= i < j < |s| ensures s[i].requestHash != s[j].requestHash {
      if j == |f.requests| {
        assert s[i] in f.requests && s[j] == g.requests[0];
        assert g.requests[0] in g.requests;
      }
    }
  }

  lemma {:induction false} CollectStructured(ctx: Context, one: string -> Facts, ids: seq<string>)
    requires NoDup(ids)
    requires forall id <- ids :: one(id) == NO_FACTS || Fragment(ctx, id, one(id))
    ensures Structured(ctx, ids, Collect(one, ids))
  {
    if ids != [] {
      var n := |ids| - 1;
      var before, id := ids[..n], ids[n];
      assert ids == before + [id] && id !in before && id in ids;
      CollectStructured(ctx, one, before);
      if one(id) == NO_FACTS {
        assert Join(Collect(one, before), NO_FACTS) == Collect(one, before);
        assert Structured(ctx, ids, Collect(one, before));
      } else {
        JoinStructured(ctx, before, Collect(one, before), id, one(id));
      }
    }
  }

  ghost predicate FactsValid(ctx: Context, f: Facts) {
    && (forall r <- f.requests :: ValidRequest(r))
    && (forall a <- f.attempts :: ValidAttempt(a))
  }

  lemma JoinValid(ctx: Context, f: Facts, g: Facts)
    ensures FactsValid(ctx, Join(f, g)) <==> FactsValid(ctx, f) && FactsValid(ctx, g)
  {
    assert forall x :: x in Join(f, g).requests <==> x in f.requests || x in g.requests;
    assert forall x :: x in Join(f, g).attempts <==> x in f.attempts || x in g.attempts;
  }

  lemma {:induction false} CollectValid(ctx: Context, one: string -> Facts, ids: seq<string>)
    ensures FactsValid(ctx, Collect(one, ids)) <==> forall id <- ids :: FactsValid(ctx, one(id))
  {
    if ids != [] {
      var n := |ids| - 1;
      assert ids == ids[..n] + [ids[n]];
      CollectValid(ctx, one, ids[..n]);
      JoinValid(ctx, Collect(one, ids[..n]), one(ids[n]));
    }
  }

  ghost predicate AllStorable(ctx: Context, ids: seq<string>, records: seq<LogInput>) {
    forall id <- ids :: Group(id, records) != [] ==> GroupStorable(Group(id, records))
  }

  lemma FactsOfValid(ctx: Context, id: string, records: seq<LogInput>)
    requires Prepared(records) && ctx.source != DirectProbe && ctx.site != NIL
    ensures FactsValid(ctx, FactsOf(ctx, id, records)) <==>
            (Group(id, records) != [] ==> GroupStorable(Group(id, records)))
  {
    if Group(id, records) != [] {
      GroupIsGroup(id, records);
      GroupValid(ctx, id, Group(id, records));
    }
  }

  /** Structure comes for free; only the storability of the quoted evidence can fail. */
  lemma BuiltFacts(ctx: Context, ids: seq<string>, records: seq<LogInput>)
    requires NoDup(ids) && Prepared(records) && ctx.source != DirectProbe && ctx.site != NIL
    ensures var f := Build(ctx, ids, records);
            ValidFacts(ctx.source, ctx.site, f.requests, f.attempts) <==>
            AllStorable(ctx, ids, records)
  {
    var one := PerId(ctx, records);
    forall id | id in ids
      ensures one(id) == NO_FACTS || Fragment(ctx, id, one(id))
      ensures FactsValid(ctx, one(id)) <==> (Group(id, records) != [] ==> GroupStorable(Group(id, records)))
    {
      if Group(id, records) != [] { FactsOfFragment(ctx, id, records); }
      FactsOfValid(ctx, id, records);
    }
    CollectStructured(ctx, one, ids);
    CollectValid(ctx, one, ids);
    StructuredAndValid(ctx, ids, Collect(one, ids));
  }

  lemma StructuredAndValid(ctx: Context, ids: seq<string>, f: Facts)
    requires Structured(ctx, ids, f)
    ensures ValidFacts(ctx.source, ctx.site, f.requests, f.attempts) <==> FactsValid(ctx, f)
  {
  }

  lemma {:induction false} BuildKeyed(ctx: Context, ids: seq<string>, records: seq<LogInput>)
    ensures forall r <- Build(ctx, ids, records).requests :: Keyed(r)
  {
    if ids != [] {
      var id := ids[|ids| - 1];
      BuildKeyed(ctx, ids[..|ids| - 1], records);
      if Group(id, records) != [] { RequestKeyed(ctx, Group(id, records)); }
      assert PerId(ctx, records)(id) == FactsOf(ctx, id, records);
    }
  }

  // ---------- the cursor ----------

  lemma {:induction false} NextCursorFacts(from: Cursor, records: seq<LogInput>)
    requires (from.IsZero() || from.Valid()) && CursorsValid(records)
    ensures var n := NextCursor(from, records);
            && (n == from || exists r <- records :: r.cursor == n)
            && (n.IsZero() || n.Valid())
            && (!from.IsZero() ==> !n.IsZero() && CursorLe(from, n))
            && forall r <- records :: !n.IsZero() && CursorLe(r.cursor, n)
  {
    if records == [] {
      CompareLaws(from, from);
    } else {
      var k := |records| - 1;
      var m, c := NextCursor(from, records[..k]), records[k].cursor;
      NextCursorFacts(from, records[..k]);
      assert records == records[..k] + [records[k]];
      CompareLaws(m, c);
      CompareLaws(c, c);
      var n := Later(m, c);
      assert m.IsZero() || CursorLe(m, n);
      forall r | r in records ensures !n.IsZero() && CursorLe(r.cursor, n) {
        if r in records[..k] { CursorLeTransitive(r.cursor, m, n); }
      }
      if !from.IsZero() { CursorLeTransitive(from, m, n); }
      assert n == c ==> records[k] in records && records[k].cursor == n;
    }
  }

  /** The next cursor depends only on which cursors occur. */
  lemma NextCursorSame(from: Cursor, a: seq<LogInput>, b: seq<LogInput>)
    requires (from.IsZero() || from.Valid()) && CursorsValid(a) && CursorsValid(b)
    requires forall r <- a :: exists q <- b :: q.cursor == r.cursor
    requires forall r <- b :: exists q <- a :: q.cursor == r.cursor
    ensures NextCursor(from, a) == NextCursor(from, b)
  {
    NextCursorFacts(from, a);
    NextCursorFacts(from, b);
    var m, n := NextCursor(from, a), NextCursor(from, b);
    CompareLaws(m, n);
    CompareLaws(from, from);
  }

  // ---------- the conversion succeeds exactly on convertible windows ----------

  lemma QuarantineDistinctness(ctx: Context, records: seq<LogInput>)
    ensures QuarantinesDistinct(Map(Quarantined(ctx), records)) <==> NoDup(Map(CursorOf, records))
  {
    var q, c := Map(Quarantined(ctx), records), Map(CursorOf, records);
    forall i, j | 0 <= i < j < |records| ensures (q[i].sourceHash != q[j].sourceHash) <==> c[i] != c[j] {
    }
    if NoDup(c) {
      forall i, j | 0 <= i < j < |q| ensures q[i].sourceHash != q[j].sourceHash {
        assert c[i] != c[j];
      }
    }
    if QuarantinesDistinct(q) {
      forall i, j | 0 <= i < j < |c| ensures c[i] != c[j] {
        assert q[i].sourceHash != q[j].sourceHash;
      }
    }
  }

  lemma QuarantinesValid(ctx: Context, records: seq<LogInput>)
    requires ctx.source != DirectProbe && ctx.site != NIL
    requires forall r <- records :: InvalidRecord(r) && r.cursor.Valid()
    ensures forall q <- Map(Quarantined(ctx), records) :: ValidQuarantine(q) && q.source == ctx.source && q.site == ctx.site
  {
    forall q | q in Map(Quarantined(ctx), records)
      ensures ValidQuarantine(q) && q.source == ctx.source && q.site == ctx.site
    {
      var i :| 0 <= i < |records| && Map(Quarantined(ctx), records)[i] == q;
      assert records[i] in records;
    }
  }

  lemma AcceptedRecords(ctx: Context, from: Cursor, inputs: seq<LogInput>)
    requires Acceptable(ctx, from, inputs)
    ensures CursorsValid(Records(inputs))
    ensures forall r <- Invalids(inputs) :: InvalidRecord(r) && r.cursor.Valid()
  {
    RecordsSubset(inputs);
    forall i | 0 <= i < |Records(inputs)| ensures Records(inputs)[i].cursor.Valid() {
      var r := Records(inputs)[i];
      assert r in Records(inputs);
      var k :| 0 <= k < |inputs| && inputs[k] == r;
    }
    FilterMembers(InvalidRecord, Records(inputs));
    forall r | r in Invalids(inputs) ensures InvalidRecord(r) && r.cursor.Valid() {
      assert r in Records(inputs);
      var k :| 0 <= k < |Records(inputs)| && Records(inputs)[k] == r;
    }
  }

  lemma AllGroups(ctx: Context, records: seq<LogInput>)
    ensures AllStorable(ctx, Ids(records), records) <==>
            forall id :: Group(id, records) != [] ==> GroupStorable(Group(id, records))
  {
    IdsFacts(records);
  }

  /** Validation of a batch built over any duplicate-free list of request names. */
  lemma BatchValid(ctx: Context, from: Cursor, inputs: seq<LogInput>, ids: seq<string>, quarantined: seq<LogInput>)
    requires Acceptable(ctx, from, inputs) && NoDup(ids)
    requires forall r <- quarantined :: InvalidRecord(r) && r.cursor.Valid()
    ensures var f := Build(ctx, ids, Valids(inputs));
            ValidBatch(
              Batch(ctx.source, ctx.site, from, NextCursor(from, Records(inputs)), f.requests, f.attempts,
                    Map(Quarantined(ctx), quarantined)))
            <==> AllStorable(ctx, ids, Valids(inputs)) && NoDup(Map(CursorOf, quarantined))
  {
    AcceptedRecords(ctx, from, inputs);
    NextCursorFacts(from, Records(inputs));
    ValidsPrepared(inputs);
    BuiltFacts(ctx, ids, Valids(inputs));
    QuarantinesValid(ctx, quarantined);
    QuarantineDistinctness(ctx, quarantined);
  }

  /** The batch of a window validates, and so is produced, exactly when the window is convertible. */
  lemma ConvertSucceeds(ctx: Context, from: Cursor, inputs: seq<LogInput>)
    ensures Convert(ctx, from, inputs).Some? <==> Convertible(ctx, from, inputs)
  {
    if Acceptable(ctx, from, inputs) {
      AcceptedRecords(ctx, from, inputs);
      IdsFacts(Valids(inputs));
      BatchValid(ctx, from, inputs, Ids(Valids(inputs)), Invalids(inputs));
      AllGroups(ctx, Valids(inputs));
    }
  }

  /**
   Every record of a window ends up in exactly one place: some prepared record carries its
   identity, no two prepared records share an identity, and the prepared records are
   dealt out to the request groups and the quarantines without loss or repetition.
   */
  lemma EachRecordOnce(inputs: seq<LogInput>, r: LogInput)
    requires r in inputs
    ensures exists k <- Records(inputs) :: Identity(k) == Identity(r)
    ensures NoDup(Map(Identity, Records(inputs)))
    ensures multiset(Records(inputs)) == multiset(Valids(inputs)) + multiset(Invalids(inputs))
    ensures forall k <- Valids(inputs) :: k in Group(k.requestId, Valids(inputs))
    ensures forall k <- Valids(inputs), id :: k in Group(id, Valids(inputs)) ==> id == k.requestId
  {
    var k := RecordsCover(inputs, r);
    var s := StableSort(InputLe, inputs);
    DedupDistinctKeys(Identity, s);
    Dealt(Records(inputs));
    forall v, id | v in Valids(inputs) ensures v in Group(id, Valids(inputs)) <==> id == v.requestId {
      FilterMembers(OfRequest(id), Valids(inputs));
    }
  }

  lemma {:induction false} Dealt(records: seq<LogInput>)
    ensures multiset(records) == multiset(Filter(ValidRecord, records)) + multiset(Filter(InvalidRecord, records))
  {
    if records != [] {
      var n := |records| - 1;
      Dealt(records[..n]);
      assert records == records[..n] + [records[n]];
      FilterSnoc(ValidRecord, records[..n], records[n]);
      FilterSnoc(InvalidRecord, records[..n], records[n]);
      assert ValidRecord(records[n]) <==> !InvalidRecord(records[n]);
      DealtSnoc(
        records[..n], Filter(ValidRecord, records[..n]), Filter(InvalidRecord, records[..n]), records[n],
        ValidRecord(records[n]));
    }
  }

  lemma DealtSnoc<T>(s: seq<T>, a: seq<T>, b: seq<T>, x: T, first: bool)
    requires multiset(s) == multiset(a) + multiset(b)
    ensures multiset(s + [x]) == multiset(if first then a + [x] else a) + multiset(if first then b else b + [x])
  {
  }
}
