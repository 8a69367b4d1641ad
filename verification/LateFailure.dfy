/** A failure log that shows up late makes a later window of the same request fail for good. */
module LateFailure {
  import opened Wrappers
  import opened Sequences
  import opened Cursors
  import opened Measurement
  import opened ErrorClasses
  import opened LogHash
  import opened Conversion
  import opened Batches
  import opened PerRequest
  import opened RemoteLogs
  import opened CollectedWindow
  import opened MeasurementStore

  /** The request failed on its first channel, and ended on a later one, which lists both. */
  predicate Retried(f: LogInput, t: LogInput) {
    && ValidRecord(f) && ValidRecord(t) && f.requestId == t.requestId && f.result == Failed
    && CursorLe(f.cursor, t.cursor) && f.cursor != t.cursor
    && 2 <= |t.usedChannels| && |f.usedChannels| <= |t.usedChannels| && t.usedChannels[0] == f.channel
  }

  // ---------- two revisions of one request ----------

  lemma SameChannels(f: LogInput, t: LogInput)
    requires Retried(f, t)
    ensures Channels([f, t]) == Channels([t]) && 2 <= |Channels([t])| && Channels([t])[0] == f.channel
  {
    assert [f, t][..1] == [f] && [f][..0] == [] && [t][..0] == [];
    assert ReportedChannels([f]) == f.usedChannels && ReportedChannels([t]) == t.usedChannels;
    assert ReportedChannels([f, t]) == t.usedChannels;
  }

  /** With the failure record the first attempt is measured by it, without it by nothing. */
  lemma FirstAttempts(ctx: Context, f: LogInput, t: LogInput)
    requires Retried(f, t)
    ensures AllAttempts(ctx, [f, t]) != [] && AllAttempts(ctx, [t]) != []
    ensures AllAttempts(ctx, [f, t])[0].sourceHash == AttemptDigest(Log(ctx, f), 1, f.channel)
    ensures AllAttempts(ctx, [t])[0].sourceHash == AttemptDigest(Log(ctx, t), 1, f.channel)
  {
    SameChannels(f, t);
    assert [f, t][..1] == [f] && [t][..0] == [] && [f][..0] == [];
    assert Failures([f, t]) == [f] by { assert Filter(IsFailure, []) == []; }
    assert Failures([t]) == [];
    assert Explanation([f, t], 0) == Some(f) by { assert Explains([f], Channels([f, t]), 0) == 0; }
    assert Explanation([t], 0) == None;
  }

  lemma TwoRevisions(ctx: Context, f: LogInput, t: LogInput)
    requires Retried(f, t)
    ensures var a, b := Request(ctx, [f, t]), Request(ctx, [t]);
            a.requestHash == b.requestHash && a.terminal == b.terminal == t.cursor && a.sourceHash != b.sourceHash
  {
    var a, b := Request(ctx, [f, t]), Request(ctx, [t]);
    FirstAttempts(ctx, f, t);
    assert Terminal([f, t]) == Terminal([t]);
    assert a.sourceHash.attempts[0] == AllAttempts(ctx, [f, t])[0].sourceHash;
    assert b.sourceHash.attempts[0] == AllAttempts(ctx, [t])[0].sourceHash;
    assert Log(ctx, f) != Log(ctx, t) by { assert Identity(f).cursor != Identity(t).cursor; }
  }

  // ---------- what windows with these records give ----------

  lemma SortedOne<T(!new)>(le: (T, T) -> bool, x: T)
    ensures StableSort(le, [x]) == [x]
  {
    assert [x][..0] == [] && StableSort(le, []) == [];
  }

  lemma SortedTwo<T(!new)>(le: (T, T) -> bool, x: T, y: T)
    requires le(x, y)
    ensures StableSort(le, [x, y]) == [x, y]
  {
    SortedOne(le, x);
    assert [x, y][..1] == [x];
    InsertAfterAll(le, [x], y);
  }

  /** Ordered, distinct and valid records are prepared already. */
  lemma PreparedAs(inputs: seq<LogInput>)
    requires StableSort(InputLe, inputs) == inputs && Dedup(Identity, inputs) == inputs
    requires forall i :: 0 <= i < |inputs| ==> ValidRecord(inputs[i])
    ensures Valids(inputs) == inputs
  {
    FilterAll(ValidRecord, inputs);
  }

  lemma DistinctOne(t: LogInput)
    ensures Dedup(Identity, [t]) == [t] && Dedup(RequestId, [t]) == [t] && Map(RequestId, [t]) == [t.requestId]
  {
    assert [t][..0] == [];
    KeysMembers(Identity, []);
    KeysMembers(RequestId, []);
  }

  /** When all records belong to one request they give its one fact. */
  lemma OneRequest(ctx: Context, id: string, records: seq<LogInput>)
    requires records != [] && Ids(records) == [id] && Valids(records) == records
    requires forall i :: 0 <= i < |records| ==> records[i].requestId == id
    ensures Build(ctx, Ids(records), Valids(records)).requests == [Request(ctx, records)]
  {
    FilterAll(OfRequest(id), records);
    assert [id][..0] == [] && Collect(PerId(ctx, records), []) == NO_FACTS;
    assert PerId(ctx, records)(id) == FactsOf(ctx, id, records);
  }

  lemma OrderedOne(s: seq<LogInput>)
    requires |s| == 1
    ensures StableSort(InputLe, s) == s && Dedup(Identity, s) == s
  {
    assert s == [s[0]];
    SortedOne(InputLe, s[0]);
    DistinctOne(s[0]);
  }

  lemma OrderedTwo(s: seq<LogInput>)
    requires |s| == 2 && Retried(s[0], s[1])
    ensures StableSort(InputLe, s) == s && Dedup(Identity, s) == s
  {
    assert s == [s[0], s[1]];
    SortedTwo(InputLe, s[0], s[1]);
    TwoDistinct(s[0], s[1]);
  }

  lemma NamesOne(t: LogInput)
    ensures Ids([t]) == [t.requestId]
  {
    DistinctOne(t);
  }

  lemma NamesTwo(f: LogInput, t: LogInput)
    requires f.requestId == t.requestId && f.cursor != t.cursor
    ensures Ids([f, t]) == [t.requestId]
  {
    TwoDistinct(f, t);
    DistinctOne(f);
  }

  /** The records of both windows: those after the failure, and those with it. */
  predicate BothRecords(after: seq<LogInput>, both: seq<LogInput>) {
    |after| == 1 && |both| == 2 && both[1] == after[0] && Retried(both[0], both[1])
  }

  lemma PreparedFirst(after: seq<LogInput>, id: string)
    requires |after| == 1 && ValidRecord(after[0]) && after[0].requestId == id
    ensures Valids(after) == after && Ids(after) == [id]
  {
    OrderedOne(after);
    PreparedAs(after);
    assert after == [after[0]];
    NamesOne(after[0]);
  }

  lemma PreparedSecond(both: seq<LogInput>, id: string)
    requires |both| == 2 && Retried(both[0], both[1]) && both[0].requestId == id
    ensures Valids(both) == both && Ids(both) == [id]
  {
    OrderedTwo(both);
    PreparedAs(both);
    assert both == [both[0], both[1]];
    NamesTwo(both[0], both[1]);
  }

  lemma FirstFact(ctx: Context, after: seq<LogInput>, id: string)
    requires |after| == 1 && ValidRecord(after[0]) && after[0].requestId == id
    ensures Build(ctx, Ids(after), Valids(after)).requests == [Request(ctx, after)]
  {
    PreparedFirst(after, id);
    OneRequest(ctx, id, after);
  }

  lemma SecondFact(ctx: Context, both: seq<LogInput>, id: string)
    requires |both| == 2 && Retried(both[0], both[1]) && both[0].requestId == id
    ensures Build(ctx, Ids(both), Valids(both)).requests == [Request(ctx, both)]
  {
    PreparedSecond(both, id);
    OneRequest(ctx, id, both);
  }

  lemma FactsDiffer(ctx: Context, after: seq<LogInput>, both: seq<LogInput>)
    requires BothRecords(after, both)
    ensures Reverting(Request(ctx, after), Request(ctx, both))
  {
    assert after == [after[0]] && both == [both[0], both[1]];
    TwoRevisions(ctx, both[0], both[1]);
  }

  /** Two revisions of one request at one position. */
  predicate Reverting(first: RequestFact, second: RequestFact) {
    first.requestHash == second.requestHash && first.terminal == second.terminal && first.sourceHash != second.sourceHash
  }

  /** The one request of each window, in two different revisions at one position. */
  lemma Revisions(ctx: Context, after: seq<LogInput>, both: seq<LogInput>) returns (first: RequestFact, second: RequestFact)
    requires BothRecords(after, both)
    ensures Build(ctx, Ids(after), Valids(after)).requests == [first]
    ensures Build(ctx, Ids(both), Valids(both)).requests == [second]
    ensures Reverting(first, second)
  {
    first, second := Request(ctx, after), Request(ctx, both);
    FirstFact(ctx, after, after[0].requestId);
    SecondFact(ctx, both, after[0].requestId);
    FactsDiffer(ctx, after, both);
  }

  lemma TwoDistinct(f: LogInput, t: LogInput)
    requires f.requestId == t.requestId && f.cursor != t.cursor
    ensures Dedup(Identity, [f, t]) == [f, t] && Dedup(RequestId, [f, t]) == [f]
  {
    assert [f, t][..1] == [f] && [f][..0] == [];
    KeysMembers(Identity, [f]);
    KeysMembers(RequestId, [f]);
    assert Dedup(Identity, [f]) == [f] && Dedup(RequestId, [f]) == [f];
    assert Identity(f).cursor != Identity(t).cursor;
  }

  // ---------- three windows ----------

  /** A window of well identified, storable logs that come to these records. */
  ghost predicate WindowOf(logs: seq<RemoteLog>, records: seq<LogInput>) {
    && WellIdentified(logs) && SummariesStorable(logs) && NoDup(logs)
    && Inputs(logs) == records && SetAside(logs) == []
  }

  /** Two well-formed logs of such a request. */
  predicate RetriedLogs(failure: RemoteLog, ended: RemoteLog) {
    && Locatable(failure) && Locatable(ended) && failure.id <= MAX_INT64 && ended.id <= MAX_INT64
    && failure.createdAt < ended.createdAt
    && SummaryOf(failure.text).storable && SummaryOf(ended.text).storable
    && ToInput(failure).Success? && ToInput(ended).Success?
    && Retried(ToInput(failure).value, ToInput(ended).value)
  }

  /** The logs of such a request make such windows. */
  lemma RetriedWindows(failure: RemoteLog, ended: RemoteLog)
    requires RetriedLogs(failure, ended)
    ensures WindowOf([ended], [ToInput(ended).value])
    ensures WindowOf([failure, ended], [ToInput(failure).value, ToInput(ended).value])
    ensures BothRecords([ToInput(ended).value], [ToInput(failure).value, ToInput(ended).value])
  {
    InputsOne(ended);
    InputsTwo(failure, ended);
  }

  lemma InputsOne(a: RemoteLog)
    requires Locatable(a) && ToInput(a).Success?
    ensures Inputs([a]) == [ToInput(a).value] && SetAside([a]) == []
  {
    assert [a][..0] == [];
  }

  lemma InputsTwo(a: RemoteLog, b: RemoteLog)
    requires Locatable(a) && Locatable(b) && ToInput(a).Success? && ToInput(b).Success?
    ensures Inputs([a, b]) == [ToInput(a).value, ToInput(b).value] && SetAside([a, b]) == []
  {
    InputsOne(a);
    assert [a, b][..1] == [a];
  }

  /** What a committed window holds of its inputs when none is set aside. */
  lemma WindowFacts(ctx: Context, from: Cursor, logs: seq<RemoteLog>)
    requires AllLocatable(logs) && SetAside(logs) == [] && WindowBatch(ctx, from, logs).Some?
    ensures var b := WindowBatch(ctx, from, logs).value;
            && ValidBatch(b) && b.from == from && b.next == NextCursor(from, Inputs(logs))
            && b.requests == Build(ctx, Ids(Inputs(logs)), Valids(Inputs(logs))).requests
  {
    ConvertEachFacts(ctx, from, Inputs(logs), Ids(Inputs(logs)));
  }

  /** A valid batch that holds this one revision. */
  ghost predicate Holds(b: Option<Batch>, from: Cursor, next: Cursor, fact: RequestFact) {
    b.Some? && ValidBatch(b.value) && b.value.from == from && b.value.next == next && b.value.requests == [fact]
  }

  /** The batch of a window whose inputs come to one revision. */
  lemma WindowBuilt(ctx: Context, from: Cursor, logs: seq<RemoteLog>, records: seq<LogInput>, next: Cursor, fact: RequestFact)
    requires ctx.source != DirectProbe && ctx.site != NIL && (from.IsZero() || from.Valid()) && WindowOf(logs, records)
    requires next == NextCursor(from, records) && Build(ctx, Ids(records), Valids(records)).requests == [fact]
    ensures Holds(WindowBatch(ctx, from, logs), from, next, fact)
  {
    WindowAlwaysCommits(ctx, from, logs);
    WindowFacts(ctx, from, logs);
  }

  lemma EndPosition(logs: seq<RemoteLog>, records: seq<LogInput>, t: LogInput)
    requires WindowOf(logs, records) && t in records
    ensures t.cursor.at > 0 && t.cursor.source != "" && t.cursor.Valid() && !t.cursor.IsZero()
  {
    InputOrigin(logs);
    var i :| 0 <= i < |logs| && ToInput(logs[i]) == Success(t);
    InputShape(logs[i]);
  }

  lemma NextAfter(from: Cursor, f: LogInput, t: LogInput)
    requires from == ZERO_CURSOR || from == t.cursor
    requires CursorLe(f.cursor, t.cursor) && !f.cursor.IsZero() && !t.cursor.IsZero()
    ensures NextCursor(from, [t]) == t.cursor && NextCursor(from, [f, t]) == t.cursor
  {
    CompareLaws(f.cursor, t.cursor);
    CompareLaws(t.cursor, t.cursor);
    assert [t][..0] == [] && [f, t][..1] == [f] && [f][..0] == [];
    assert NextCursor(from, []) == from;
    assert NextCursor(from, [f]) == Later(from, f.cursor);
  }

  lemma ReviseAllOne(rows: seq<Row>, fact: RequestFact)
    ensures ReviseAll(rows, [fact]) == Revise(rows, fact)
  {
    assert [fact][..0] == [];
    assert ReviseAll(rows, []) == Success(rows);
  }

  lemma CommitOne(db: Database, b: Option<Batch>, next: Cursor, fact: RequestFact, scanThrough: int)
    requires Holds(b, db.cursor, next, fact) && next.at > 0 && next.source != ""
    requires scanThrough > 0 && (db.scanned.Some? ==> db.scanned.value <= scanThrough)
    ensures match Revise(db.rows, fact)
            case Failure(e) => Commit(db, b.value, db.scanned, scanThrough) == Failure(e)
            case Success(rows) =>
              var c := Commit(db, b.value, db.scanned, scanThrough);
              c.Success? && c.value.rows == rows && c.value.cursor == next && c.value.scanned == Some(scanThrough)
  {
    CompareLaws(db.cursor, b.value.from);
    ReviseAllOne(db.rows, fact);
  }

  const EMPTY := Database(ZERO_CURSOR, None, [], {}, {})

  /** Offering one revision, another at the same position, and the first again. */
  lemma OfferedAgain(
    first: RequestFact, second: RequestFact, next: Cursor, b1: Option<Batch>, b2: Option<Batch>, b3: Option<Batch>, a: int, b: int, c: int)
    returns (db1: Database, db2: Database)
    requires Holds(b1, ZERO_CURSOR, next, first) && Holds(b2, next, next, second) && Holds(b3, next, next, first)
    requires Reverting(first, second)
    requires next.at > 0 && next.source != "" && 0 < a <= b <= c
    ensures Commit(EMPTY, b1.value, None, a) == Success(db1) && db1.cursor == next
    ensures Commit(db1, b2.value, Some(a), b) == Success(db2) && db2.cursor == next
    ensures Commit(db2, b3.value, Some(b), c) == Failure(KeyExists)
  {
    CommitOne(EMPTY, b1, next, first, a);
    ReviseFresh(first);
    db1 := Commit(EMPTY, b1.value, None, a).value;
    CommitOne(db1, b2, next, second, b);
    CompareLaws(first.terminal, second.terminal);
    var one := Row(first.requestHash, first.sourceHash, 1, first.terminal, true);
    ReviseOnly(one, second);
    db2 := Commit(db1, b2.value, Some(a), b).value;
    CommitOne(db2, b3, next, first, c);
    RevisedBack(one, second, first);
  }

  /** All three windows end at the last record of the request. */
  lemma EndOf(later: seq<RemoteLog>, whole: seq<RemoteLog>, after: seq<LogInput>, both: seq<LogInput>) returns (end: Cursor)
    requires WindowOf(later, after) && WindowOf(whole, both) && BothRecords(after, both)
    ensures end.at > 0 && end.source != "" && end.Valid()
    ensures NextCursor(ZERO_CURSOR, after) == end && NextCursor(end, both) == end && NextCursor(end, after) == end
  {
    var f, t := both[0], both[1];
    end := t.cursor;
    assert after == [t] && both == [f, t];
    EndPosition(later, after, t);
    EndPosition(whole, both, f);
    CompareLaws(end, end);
    NextAfter(ZERO_CURSOR, t, t);
    NextAfter(end, f, t);
    NextAfter(end, t, t);
  }

  /** The batches the windows give. */
  lemma BatchesOf(
    ctx: Context, later: seq<RemoteLog>, whole: seq<RemoteLog>, after: seq<LogInput>, both: seq<LogInput>,
    first: RequestFact, second: RequestFact, end: Cursor)
    requires ctx.source != DirectProbe && ctx.site != NIL && WindowOf(later, after) && WindowOf(whole, both) && end.Valid()
    requires NextCursor(ZERO_CURSOR, after) == end && NextCursor(end, both) == end && NextCursor(end, after) == end
    requires Build(ctx, Ids(after), Valids(after)).requests == [first] && Build(ctx, Ids(both), Valids(both)).requests == [second]
    ensures Holds(WindowBatch(ctx, ZERO_CURSOR, later), ZERO_CURSOR, end, first)
    ensures Holds(WindowBatch(ctx, end, whole), end, end, second)
    ensures Holds(WindowBatch(ctx, end, later), end, end, first)
  {
    WindowBuilt(ctx, ZERO_CURSOR, later, after, end, first);
    WindowBuilt(ctx, end, whole, both, end, second);
    WindowBuilt(ctx, end, later, after, end, first);
  }

  /**
   The failure of a request shows up only after a window with its end was collected. The
   next window that reads both stores a second revision, and a window that then starts after
   the failure offers the first revision again: it is refused, and nothing of it is saved.
   */
  lemma LateFailureRefused(
    ctx: Context, later: seq<RemoteLog>, whole: seq<RemoteLog>, after: seq<LogInput>, both: seq<LogInput>, a: int, b: int, c: int)
    returns (b1: Batch, db1: Database, b2: Batch, db2: Database, b3: Batch)
    requires ctx.source != DirectProbe && ctx.site != NIL && 0 < a <= b <= c
    requires WindowOf(later, after) && WindowOf(whole, both) && BothRecords(after, both)
    ensures WindowBatch(ctx, ZERO_CURSOR, later) == Some(b1) && Commit(EMPTY, b1, None, a) == Success(db1)
    ensures WindowBatch(ctx, db1.cursor, whole) == Some(b2) && Commit(db1, b2, Some(a), b) == Success(db2)
    ensures WindowBatch(ctx, db2.cursor, later) == Some(b3) && Commit(db2, b3, Some(b), c) == Failure(KeyExists)
  {
    var first, second := Revisions(ctx, after, both);
    var end := EndOf(later, whole, after, both);
    BatchesOf(ctx, later, whole, after, both, first, second, end);
    b1, b2, b3 := WindowBatch(ctx, ZERO_CURSOR, later).value, WindowBatch(ctx, end, whole).value, WindowBatch(ctx, end, later).value;
    db1, db2 := OfferedAgain(first, second, end, Some(b1), Some(b2), Some(b3), a, b, c);
  }

  lemma RevisedBack(one: Row, second: RequestFact, first: RequestFact)
    requires one == Row(first.requestHash, first.sourceHash, 1, first.terminal, true)
    requires Reverting(first, second)
    ensures Revise([one.(current := false), Row(second.requestHash, second.sourceHash, 2, second.terminal, true)], first) == Failure(KeyExists)
  {
    var retired, two := one.(current := false), Row(second.requestHash, second.sourceHash, 2, second.terminal, true);
    CompareLaws(first.terminal, first.terminal);
    CurrentSecond(retired, two);
    var base := [retired, two.(current := false)];
    assert [retired, two][1 := two.(current := false)] == base;
    assert base[0].key == first.sourceHash;
  }
}
