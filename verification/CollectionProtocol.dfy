/** Collectors of one site over a shared store. */
module CollectionProtocol {
  // Any number of them read, split, commit, lose the reply of a commit, or stop, in any interleaving.
  import opened Wrappers
  import opened Sequences
  import opened Cursors
  import opened Measurement
  import opened Conversion
  import opened Batches
  import opened PerRequest
  import opened RemoteLogs
  import opened CollectedWindow
  import opened LogWindows
  import opened MeasurementStore

  const INITIAL_LOOKBACK := 86400

  /** A range (from, through] still to be collected. */
  datatype Range = Range(from: int, through: int)

  /** One collection attempt; `cursor` and `committed` are what it last saw committed. */
  datatype Run = Run(lower: int, overlap: nat, cursor: Cursor, committed: Option<int>, todo: seq<Range>)

  /** A collector is idle, scanning, or holds the records of a window it has read completely; `retried` when only its last second. */
  datatype Collector = Idle | Scanning(run: Run) | Holding(run: Run, leaf: Leaf, records: seq<RemoteLog>, retried: bool)

  /** A commit: the window read, the remote records at that moment, and the batch saved. */
  datatype Saved = Saved(
    leaf: Leaf, records: seq<RemoteLog>, ctx: Context, batch: Batch, scanFrom: Option<int>, overlap: nat, retried: bool)
  {
    function Logs(): seq<RemoteLog> { WindowLogs(records, leaf.start, leaf.through) }
  }

  datatype System = System(db: Database, collectors: seq<Collector>, history: seq<Saved>)

  datatype Step =
    | Begin(now: int, overlap: nat)
    | Split
    | Read(records: seq<RemoteLog>, retry: bool)
    | Save(ctx: Context)
    | SaveUnseen(ctx: Context)
    | Stop

  // ---------- the steps ----------

  function Started(db: Database, now: int, overlap: nat): Run {
    match db.scanned
    case None => Run(now - INITIAL_LOOKBACK, overlap, db.cursor, None, [Range(now - INITIAL_LOOKBACK - 1, now)])
    case Some(at) => Run(at - overlap, overlap, db.cursor, db.scanned, [Range(at, now)])
  }

  predicate CanBegin(db: Database, now: int) {
    now > INITIAL_LOOKBACK && (db.scanned.Some? ==> db.scanned.value <= now)
  }

  function Halved(run: Run): Run
    requires run.todo != []
  {
    var head := run.todo[0];
    var m := Middle(head.from, head.through);
    run.(todo := [Range(head.from, m), Range(m, head.through)] + run.todo[1..])
  }

  /** The window read for the first range; the retry reads its last second only. */
  function LeafOf(run: Run, retry: bool): Leaf
    requires run.todo != []
  {
    var head := run.todo[0];
    Leaf(head.from, head.through, if retry then head.through else WindowStart(run.lower, run.overlap, head.from))
  }

  ghost predicate CanRead(run: Run, records: seq<RemoteLog>, retry: bool) {
    && run.todo != []
    && (retry ==> run.todo[0].through - run.todo[0].from <= 1)
    && !Overflows(records, LeafOf(run, retry).start, run.todo[0].through)
    && AllLocatable(WindowLogs(records, LeafOf(run, retry).start, run.todo[0].through))
  }

  /** What a collector holding a window would save. */
  ghost function Offer(c: Collector, ctx: Context): Option<Batch>
    requires c.Holding? && AllLocatable(WindowLogs(c.records, c.leaf.start, c.leaf.through))
  {
    WindowBatch(ctx, c.run.cursor, WindowLogs(c.records, c.leaf.start, c.leaf.through))
  }

  ghost predicate CanSave(db: Database, c: Collector, ctx: Context) {
    && c.Holding? && ctx.source != DirectProbe
    && AllLocatable(WindowLogs(c.records, c.leaf.start, c.leaf.through))
    && Offer(c, ctx).Some?
    && Commit(db, Offer(c, ctx).value, c.run.committed, c.leaf.through).Success?
  }

  ghost function SavedBy(c: Collector, ctx: Context): Saved
    requires c.Holding? && AllLocatable(WindowLogs(c.records, c.leaf.start, c.leaf.through)) && Offer(c, ctx).Some?
  {
    Saved(c.leaf, c.records, ctx, Offer(c, ctx).value, c.run.committed, c.run.overlap, c.retried)
  }

  function Advanced(run: Run, b: Batch, through: int): Run
    requires run.todo != []
  {
    run.(cursor := b.next, committed := Some(through), todo := run.todo[1..])
  }

  ghost predicate Enabled(s: System, i: nat, step: Step) {
    && i < |s.collectors|
    && var c := s.collectors[i];
       match step
       case Begin(now, overlap) => c.Idle? && CanBegin(s.db, now)
       case Split => c.Scanning? && c.run.todo != [] && c.run.todo[0].through - c.run.todo[0].from > 1
       case Read(records, retry) => c.Scanning? && CanRead(c.run, records, retry)
       case Save(ctx) => CanSave(s.db, c, ctx) && c.run.todo != []
       case SaveUnseen(ctx) => CanSave(s.db, c, ctx)
       case Stop => true
  }

  ghost function CollectorAfter(s: System, i: nat, step: Step): Collector
    requires Enabled(s, i, step)
  {
    var c := s.collectors[i];
    match step
    case Begin(now, overlap) => Scanning(Started(s.db, now, overlap))
    case Split => Scanning(Halved(c.run))
    case Read(records, retry) => Holding(c.run, LeafOf(c.run, retry), records, retry)
    case Save(ctx) => Scanning(Advanced(c.run, Offer(c, ctx).value, c.leaf.through))
    case _ => Idle
  }

  ghost function After(s: System, i: nat, step: Step): System
    requires Enabled(s, i, step)
  {
    var c := s.collectors[i];
    var moved := s.collectors[i := CollectorAfter(s, i, step)];
    match step
    case Save(ctx) => Committed(s, moved, c, ctx)
    case SaveUnseen(ctx) => Committed(s, moved, c, ctx)
    case _ => s.(collectors := moved)
  }

  ghost function Committed(s: System, moved: seq<Collector>, c: Collector, ctx: Context): System
    requires CanSave(s.db, c, ctx)
  {
    System(Commit(s.db, Offer(c, ctx).value, c.run.committed, c.leaf.through).value, moved,
           s.history + [SavedBy(c, ctx)])
  }

  /** A run from an empty store with idle collectors, named by its actors and steps. */
  ghost predicate Execution(states: seq<System>, moves: seq<(nat, Step)>) {
    && |states| == |moves| + 1
    && states[0] == System(Database(ZERO_CURSOR, None, [], {}, {}), states[0].collectors, [])
    && (forall c <- states[0].collectors :: c.Idle?)
    && forall k :: 0 <= k < |moves| ==>
         Enabled(states[k], moves[k].0, moves[k].1) && states[k + 1] == After(states[k], moves[k].0, moves[k].1)
  }

  // ---------- what a saved batch leaves in the store ----------

  /** The fact is stored, or a revision with a later terminal cursor is current. */
  ghost predicate RequestKept(rows: seq<Row>, fact: RequestFact) {
    HasKey(rows, fact.sourceHash) || Overtaken(History(rows, fact.requestHash), fact.terminal)
  }

  predicate Overtaken(history: seq<Row>, terminal: Cursor) {
    history != [] && CursorLe(terminal, history[|history| - 1].terminal)
  }

  ghost predicate BatchKept(db: Database, b: Batch) {
    && (forall i :: 0 <= i < |b.requests| ==> RequestKept(db.rows, b.requests[i]))
    && forall i :: 0 <= i < |b.quarantines| ==> b.quarantines[i].sourceHash in db.quarantined
  }

  lemma ReviseOvertaken(rows: seq<Row>, fact: RequestFact, hash: Digest, terminal: Cursor)
    requires GoodRows(rows) && Revise(rows, fact).Success? && Overtaken(History(rows, hash), terminal)
    ensures Overtaken(History(Revise(rows, fact).value, hash), terminal)
  {
    if Writes(rows, fact) {
      ReviseHistory(rows, fact, hash);
      var h := History(rows, hash);
      if hash == fact.requestHash { CursorLeTransitive(terminal, h[|h| - 1].terminal, fact.terminal); }
    }
  }

  lemma ReviseKept(rows: seq<Row>, fact: RequestFact, old_: RequestFact)
    requires GoodRows(rows) && Revise(rows, fact).Success? && RequestKept(rows, old_)
    ensures RequestKept(Revise(rows, fact).value, old_)
  {
    if HasKey(rows, old_.sourceHash) {
      ReviseKeys(rows, fact);
    } else {
      ReviseOvertaken(rows, fact, old_.requestHash, old_.terminal);
    }
  }

  lemma ReviseKeepsItself(rows: seq<Row>, fact: RequestFact)
    requires GoodRows(rows) && Revise(rows, fact).Success?
    ensures RequestKept(Revise(rows, fact).value, fact)
  {
    ReviseKeys(rows, fact);
    if !Writes(rows, fact) {
      var k := CurrentIndex(rows, fact.requestHash);
      if fact.sourceHash == rows[k].key {
        assert HasKey(rows, fact.sourceHash);
      } else {
        CurrentIsLast(rows, fact.requestHash);
        HistoryUpdate(rows, k, rows[k], fact.requestHash);
      }
    }
  }

  lemma {:induction false} ReviseAllKept(rows: seq<Row>, facts: seq<RequestFact>, old_: RequestFact)
    requires GoodRows(rows) && ReviseAll(rows, facts).Success? && RequestKept(rows, old_)
    ensures RequestKept(ReviseAll(rows, facts).value, old_)
  {
    if facts != [] {
      var before := facts[..|facts| - 1];
      ReviseAllKept(rows, before, old_);
      ReviseAllGood(rows, before);
      ReviseKept(ReviseAll(rows, before).value, facts[|facts| - 1], old_);
    }
  }

  lemma {:induction false} ReviseAllKeepsThem(rows: seq<Row>, facts: seq<RequestFact>)
    requires GoodRows(rows) && ReviseAll(rows, facts).Success?
    ensures forall i :: 0 <= i < |facts| ==> RequestKept(ReviseAll(rows, facts).value, facts[i])
  {
    if facts != [] {
      var n := |facts| - 1;
      var before := facts[..n];
      ReviseAllKeepsThem(rows, before);
      ReviseAllGood(rows, before);
      var middle := ReviseAll(rows, before).value;
      ReviseKeepsItself(middle, facts[n]);
      forall i | 0 <= i < |facts| ensures RequestKept(ReviseAll(rows, facts).value, facts[i]) {
        if i < n {
          assert facts[i] == before[i];
          ReviseKept(middle, facts[n], facts[i]);
        }
      }
    }
  }

  lemma CommitKeepsBatches(db: Database, b: Batch, scanFrom: Option<int>, through: int, old_: Batch)
    requires GoodRows(db.rows) && Commit(db, b, scanFrom, through).Success? && BatchKept(db, old_)
    ensures BatchKept(Commit(db, b, scanFrom, through).value, old_)
  {
    forall i | 0 <= i < |old_.requests|
      ensures RequestKept(Commit(db, b, scanFrom, through).value.rows, old_.requests[i])
    {
      ReviseAllKept(db.rows, b.requests, old_.requests[i]);
    }
  }

  lemma CommitKeepsItself(db: Database, b: Batch, scanFrom: Option<int>, through: int)
    requires GoodRows(db.rows) && Commit(db, b, scanFrom, through).Success?
    ensures BatchKept(Commit(db, b, scanFrom, through).value, b)
  {
    ReviseAllKeepsThem(db.rows, b.requests);
  }

  /** Every attempt of the batch is stored, unless a revision at least as late replaced its request. */
  ghost predicate AttemptsKept(db: Database, b: Batch) {
    forall r <- b.requests, a <- b.attempts :: a.requestHash == r.requestHash ==>
      AttemptRow(r.sourceHash, a.ordinal) in db.attempts || Overtaken(History(db.rows, r.requestHash), r.terminal)
  }

  lemma KeptWithAttempts(db: Database, b: Batch)
    requires AllAttempted(db.rows, db.attempts) && BatchKept(db, b)
    requires ValidBatch(b) && forall r <- b.requests :: Keyed(r)
    ensures AttemptsKept(db, b)
  {
    forall r, a | r in b.requests && a in b.attempts && a.requestHash == r.requestHash
      ensures AttemptRow(r.sourceHash, a.ordinal) in db.attempts || Overtaken(History(db.rows, r.requestHash), r.terminal)
    {
      var i :| 0 <= i < |b.requests| && b.requests[i] == r;
      assert RequestKept(db.rows, b.requests[i]);
      ListedAttempt(b, r, a);
      if HasKey(db.rows, r.sourceHash) { assert HasAttempts(db.attempts, r.sourceHash); }
    }
  }

  // ---------- positions stay positive ----------

  predicate Placed(c: Cursor) { c.IsZero() || c.at > 0 }

  lemma {:induction false} FurthestPlaced(next: Cursor, aside: seq<(Cursor, Reason)>)
    requires Placed(next) && forall i :: 0 <= i < |aside| ==> aside[i].0.at > 0
    ensures Placed(Furthest(next, aside))
  {
    if aside != [] { FurthestPlaced(next, aside[..|aside| - 1]); }
  }

  lemma {:induction false} NextPlaced(from: Cursor, records: seq<LogInput>)
    requires Placed(from) && forall i :: 0 <= i < |records| ==> records[i].cursor.at > 0
    ensures Placed(NextCursor(from, records))
  {
    if records != [] { NextPlaced(from, records[..|records| - 1]); }
  }

  lemma {:induction false} LogsPlaced(logs: seq<RemoteLog>)
    requires AllLocatable(logs)
    ensures forall i :: 0 <= i < |Inputs(logs)| ==> Inputs(logs)[i].cursor.at > 0
    ensures forall i :: 0 <= i < |SetAside(logs)| ==> SetAside(logs)[i].0.at > 0
  {
    if logs != [] { LogsPlaced(logs[..|logs| - 1]); }
  }

  lemma BatchPlaced(ctx: Context, from: Cursor, logs: seq<RemoteLog>)
    requires AllLocatable(logs) && WindowBatch(ctx, from, logs).Some? && Placed(from)
    ensures WindowBatch(ctx, from, logs).value.from == from && Placed(WindowBatch(ctx, from, logs).value.next)
  {
    LogsPlaced(logs);
    NextPlaced(from, Inputs(logs));
    FurthestPlaced(NextCursor(from, Inputs(logs)), SetAside(logs));
  }

  // ---------- the invariant ----------

  predicate ReadsItsRange(leaf: Leaf) { leaf.from <= leaf.through && leaf.start <= leaf.from + 1 }

  /** The window was read completely, and exactly its batch was saved. */
  ghost predicate Faithful(s: Saved) {
    && ReadsItsRange(s.leaf)
    && !Overflows(s.records, s.leaf.start, s.leaf.through)
    && AllLocatable(s.Logs())
    && WindowBatch(s.ctx, s.batch.from, s.Logs()) == Some(s.batch)
  }

  function CursorAfter(b: Batch): Cursor { StoredCursor(if b.next.IsZero() then b.from else b.next) }

  predicate First(s: Saved) { s.scanFrom.None? && s.batch.from == ZERO_CURSOR && s.leaf.start == s.leaf.from + 1 }

  predicate Succeeds(a: Saved, b: Saved) {
    b.scanFrom == Some(a.leaf.through) && b.leaf.from == a.leaf.through && b.batch.from == CursorAfter(a.batch)
  }

  ghost predicate AllHold<T>(p: T -> bool, s: seq<T>) { forall i :: 0 <= i < |s| ==> p(s[i]) }

  lemma AllHoldSnoc<T>(p: T -> bool, s: seq<T>, x: T)
    requires AllHold(p, s) && p(x)
    ensures AllHold(p, s + [x])
  {
  }

  /** Each commit starts where the one before it ended, in log positions and in time. */
  ghost predicate Chain(h: seq<Saved>) {
    && (h != [] ==> First(h[0]))
    && AllHold(Faithful, h)
    && Linked(h)
  }

  predicate Linked(h: seq<Saved>) { forall i :: 0 < i < |h| ==> Succeeds(h[i - 1], h[i]) }

  predicate AtEnd(db: Database, h: seq<Saved>) {
    if h == [] then db.cursor == ZERO_CURSOR && db.scanned == None
    else db.cursor == CursorAfter(h[|h| - 1].batch) && db.scanned == Some(h[|h| - 1].leaf.through)
  }

  ghost predicate Adjacent(todo: seq<Range>) {
    && (forall k :: 0 < k < |todo| ==> todo[k].from == todo[k - 1].through)
    && forall k :: 0 <= k < |todo| ==> 0 <= todo[k].from <= todo[k].through && todo[k].through > 0
  }

  ghost predicate RunOk(run: Run) {
    && Adjacent(run.todo) && Placed(run.cursor)
    && (run.todo != [] ==> run.lower <= run.todo[0].from + 1)
    && match run.committed
       case Some(at) => run.todo != [] ==> run.todo[0].from == at
       case None => run.todo != [] && run.todo[0].from == run.lower - 1 && run.todo[0].from < run.todo[0].through
  }

  ghost predicate LeafOk(run: Run, leaf: Leaf, records: seq<RemoteLog>) {
    && run.todo != [] && leaf.from == run.todo[0].from && leaf.through == run.todo[0].through
    && leaf.start <= leaf.from + 1 && (run.committed.None? ==> leaf.start == leaf.from + 1)
    && !Overflows(records, leaf.start, leaf.through)
    && AllLocatable(WindowLogs(records, leaf.start, leaf.through))
  }

  ghost predicate CollectorOk(c: Collector) {
    match c
    case Idle => true
    case Scanning(run) => RunOk(run)
    case Holding(run, leaf, records, _) => RunOk(run) && LeafOk(run, leaf, records)
  }

  ghost predicate AllKept(db: Database, h: seq<Saved>) { forall i :: 0 <= i < |h| ==> BatchKept(db, h[i].batch) }

  ghost predicate Inv(s: System) {
    && GoodDatabase(s.db) && Chain(s.history) && AtEnd(s.db, s.history)
    && AllKept(s.db, s.history)
    && forall i :: 0 <= i < |s.collectors| ==> CollectorOk(s.collectors[i])
  }

  lemma StartedOk(db: Database, now: int, overlap: nat)
    requires GoodDatabase(db) && CanBegin(db, now)
    ensures RunOk(Started(db, now, overlap))
  {
  }

  lemma HalvedOk(run: Run)
    requires RunOk(run) && run.todo != [] && run.todo[0].through - run.todo[0].from > 1
    ensures RunOk(Halved(run))
  {
    var todo, next := run.todo, Halved(run).todo;
    forall k | 0 <= k < |next| ensures 0 <= next[k].from <= next[k].through && next[k].through > 0 {
      if k >= 2 { assert next[k] == todo[k - 1]; }
    }
    forall k | 0 < k < |next| ensures next[k].from == next[k - 1].through {
      if k >= 2 {
        assert next[k] == todo[k - 1];
        assert k > 2 ==> next[k - 1] == todo[k - 2];
      }
    }
  }

  lemma AdvancedOk(run: Run, b: Batch, through: int)
    requires RunOk(run) && run.todo != [] && through == run.todo[0].through && Placed(b.next)
    ensures RunOk(Advanced(run, b, through))
  {
  }

  lemma ReadOk(run: Run, records: seq<RemoteLog>, retry: bool)
    requires RunOk(run) && CanRead(run, records, retry)
    ensures LeafOk(run, LeafOf(run, retry), records)
  {
  }

  lemma OfferPlaced(c: Collector, ctx: Context)
    requires CollectorOk(c) && c.Holding? && Offer(c, ctx).Some?
    ensures Offer(c, ctx).value.from == c.run.cursor && Placed(Offer(c, ctx).value.next)
  {
    BatchPlaced(ctx, c.run.cursor, WindowLogs(c.records, c.leaf.start, c.leaf.through));
  }

  lemma SaveOk(c: Collector, ctx: Context)
    requires CollectorOk(c) && c.Holding? && Offer(c, ctx).Some?
    ensures RunOk(Advanced(c.run, Offer(c, ctx).value, c.leaf.through))
  {
    OfferPlaced(c, ctx);
    AdvancedOk(c.run, Offer(c, ctx).value, c.leaf.through);
  }

  lemma CollectorStep(s: System, i: nat, step: Step)
    requires Inv(s) && Enabled(s, i, step)
    ensures CollectorOk(CollectorAfter(s, i, step))
  {
    var c := s.collectors[i];
    assert CollectorOk(c);
    if step.Begin? {
      StartedOk(s.db, step.now, step.overlap);
    } else if step.Split? {
      HalvedOk(c.run);
    } else if step.Read? {
      ReadOk(c.run, step.records, step.retry);
    } else if step.Save? {
      SaveOk(c, step.ctx);
    }
  }

  lemma LinkedSnoc(h: seq<Saved>, n: Saved)
    requires Linked(h) && (h != [] ==> Succeeds(h[|h| - 1], n))
    ensures Linked(h + [n])
  {
    var g := h + [n];
    forall i | 0 < i < |g| ensures Succeeds(g[i - 1], g[i]) {
      if i < |h| { assert g[i] == h[i] && g[i - 1] == h[i - 1]; }
    }
  }

  lemma SavedFaithful(c: Collector, ctx: Context)
    requires CollectorOk(c) && c.Holding? && Offer(c, ctx).Some?
    ensures Faithful(SavedBy(c, ctx))
  {
    OfferPlaced(c, ctx);
  }

  /** A commit compares the stored cursor and watermark with what the collector last saw. */
  lemma CommitCompares(db: Database, b: Batch, scanFrom: Option<int>, through: int)
    requires Commit(db, b, scanFrom, through).Success?
    ensures b.from == db.cursor && scanFrom == db.scanned
    ensures Commit(db, b, scanFrom, through).value.cursor == CursorAfter(b)
    ensures Commit(db, b, scanFrom, through).value.scanned == ReadBackTime(through)
  {
    CompareLaws(db.cursor, b.from);
  }

  lemma ChainGrows(db: Database, h: seq<Saved>, c: Collector, ctx: Context)
    requires Chain(h) && AtEnd(db, h) && CollectorOk(c) && CanSave(db, c, ctx)
    ensures Chain(h + [SavedBy(c, ctx)])
    ensures AtEnd(Commit(db, Offer(c, ctx).value, c.run.committed, c.leaf.through).value, h + [SavedBy(c, ctx)])
  {
    SavedFaithful(c, ctx);
    CommitCompares(db, Offer(c, ctx).value, c.run.committed, c.leaf.through);
    AllHoldSnoc(Faithful, h, SavedBy(c, ctx));
    LinkedSnoc(h, SavedBy(c, ctx));
  }

  lemma KeptGrows(
    db: Database, b: Batch, scanFrom: Option<int>, through: int, h: seq<Saved>, n: Saved)
    requires GoodRows(db.rows) && Commit(db, b, scanFrom, through).Success?
    requires AllKept(db, h) && n.batch == b
    ensures AllKept(Commit(db, b, scanFrom, through).value, h + [n])
  {
    var after := Commit(db, b, scanFrom, through).value;
    CommitKeepsItself(db, b, scanFrom, through);
    forall k | 0 <= k < |h + [n]| ensures BatchKept(after, (h + [n])[k].batch) {
      if k < |h| { CommitKeepsBatches(db, b, scanFrom, through, h[k].batch); }
    }
  }

  lemma CommitStep(s: System, i: nat, moved: seq<Collector>, ctx: Context)
    requires Inv(s) && i < |s.collectors| && CanSave(s.db, s.collectors[i], ctx)
    requires forall k :: 0 <= k < |moved| ==> CollectorOk(moved[k])
    ensures Inv(Committed(s, moved, s.collectors[i], ctx))
    ensures Forward(s.db, Committed(s, moved, s.collectors[i], ctx).db)
  {
    var c := s.collectors[i];
    var b := Offer(c, ctx).value;
    OfferPlaced(c, ctx);
    CommitKeeps(s.db, b, c.run.committed, c.leaf.through);
    ChainGrows(s.db, s.history, c, ctx);
    KeptGrows(s.db, b, c.run.committed, c.leaf.through, s.history, SavedBy(c, ctx));
  }

  /** The watermark and the cursor never go back, and no stored revision disappears. */
  ghost predicate Forward(a: Database, b: Database) {
    && (a.scanned.Some? ==> b.scanned.Some? && a.scanned.value <= b.scanned.value)
    && (!a.cursor.IsZero() ==> !b.cursor.IsZero() && CursorLe(a.cursor, b.cursor))
    && forall key :: HasKey(a.rows, key) ==> HasKey(b.rows, key)
  }

  lemma MoveKeeps(s: System, moved: seq<Collector>)
    requires Inv(s) && forall k :: 0 <= k < |moved| ==> CollectorOk(moved[k])
    ensures Inv(s.(collectors := moved)) && Forward(s.db, s.db)
  {
    CompareLaws(s.db.cursor, s.db.cursor);
  }

  lemma MovedOk(s: System, i: nat, step: Step)
    requires Inv(s) && Enabled(s, i, step)
    ensures var moved := s.collectors[i := CollectorAfter(s, i, step)];
            forall k :: 0 <= k < |moved| ==> CollectorOk(moved[k])
  {
    CollectorStep(s, i, step);
  }

  lemma StepKeeps(s: System, i: nat, step: Step)
    requires Inv(s) && Enabled(s, i, step)
    ensures Inv(After(s, i, step)) && Forward(s.db, After(s, i, step).db)
  {
    MovedOk(s, i, step);
    var moved := s.collectors[i := CollectorAfter(s, i, step)];
    if step.Save? || step.SaveUnseen? {
      CommitStep(s, i, moved, step.ctx);
    } else {
      MoveKeeps(s, moved);
    }
  }

  lemma {:induction false} ExecutionInv(states: seq<System>, moves: seq<(nat, Step)>, k: nat)
    requires Execution(states, moves) && k < |states|
    ensures Inv(states[k])
  {
    if k == 0 {
      assert History([], RequestDigest(RealTraffic, NIL, "")) == [];
      forall i | 0 <= i < |states[0].collectors| ensures CollectorOk(states[0].collectors[i]) {
        assert states[0].collectors[i] in states[0].collectors;
      }
    } else {
      ExecutionInv(states, moves, k - 1);
      StepKeeps(states[k - 1], moves[k - 1].0, moves[k - 1].1);
    }
  }

  // ---------- how far back saved windows read ----------

  /** A run reads back to the overlap before its watermark, or to the start of the very first window. */
  predicate LowEnough(lower: int, overlap: nat, committed: Option<int>, h: seq<Saved>) {
    committed.Some? ==> lower <= committed.value - overlap || (h != [] && lower == h[0].leaf.start)
  }

  predicate RunLow(run: Run, h: seq<Saved>) { LowEnough(run.lower, run.overlap, run.committed, h) }

  /** A window that starts at `start` reads exactly what is due after `from`. */
  ghost predicate StartsDue(start: int, lower: int, overlap: int, from: int) {
    forall t :: start <= t <==> Due(lower, overlap, from, t)
  }

  ghost predicate CollectorReaches(c: Collector, h: seq<Saved>) {
    match c
    case Idle => true
    case Scanning(run) => RunLow(run, h)
    case Holding(run, leaf, _, retried) => RunLow(run, h) && (retried || StartsDue(leaf.start, run.lower, run.overlap, leaf.from))
  }

  /** The window starts with the overlap before the seconds it owns, unless only its last second was read. */
  ghost predicate Reaches(s: Saved, first: int) {
    s.retried || forall t :: Due(first, s.overlap, s.leaf.from, t) ==> s.leaf.start <= t
  }

  ghost predicate AllReach(cs: seq<Collector>, h: seq<Saved>) {
    && (forall i :: 0 <= i < |cs| ==> CollectorReaches(cs[i], h))
    && forall i :: 0 <= i < |h| ==> Reaches(h[i], h[0].leaf.start)
  }

  lemma StartReaches(run: Run, retry: bool, h: seq<Saved>, records: seq<RemoteLog>)
    requires RunLow(run, h) && run.todo != []
    ensures CollectorReaches(Holding(run, LeafOf(run, retry), records, retry), h)
  {
    forall t ensures !retry ==> (LeafOf(run, retry).start <= t <==> Due(run.lower, run.overlap, run.todo[0].from, t)) {
      StartIsDue(run.lower, run.overlap, run.todo[0].from, t);
    }
  }

  lemma MoveReaches(s: System, i: nat, step: Step)
    requires Inv(s) && AllReach(s.collectors, s.history) && Enabled(s, i, step) && !step.Save? && !step.SaveUnseen?
    ensures CollectorReaches(CollectorAfter(s, i, step), s.history)
  {
    var c := s.collectors[i];
    assert CollectorReaches(c, s.history);
    if step.Read? { StartReaches(c.run, step.retry, s.history, step.records); }
  }

  /** What a commit adds reaches back far enough, and the run that made it still does. */
  lemma NextReaches(lower: int, committed: Option<int>, h: seq<Saved>, n: Saved)
    requires LowEnough(lower, n.overlap, committed, h) && (n.retried || StartsDue(n.leaf.start, lower, n.overlap, n.leaf.from))
    requires n.leaf.from <= n.leaf.through
    requires if h == [] then committed.None? && n.leaf.start == lower else committed == Some(n.leaf.from)
    ensures Reaches(n, (h + [n])[0].leaf.start)
    ensures LowEnough(lower, n.overlap, Some(n.leaf.through), h + [n])
  {
    if h == [] {
      assert (h + [n])[0] == n;
      forall t | Due(n.leaf.start, n.overlap, n.leaf.from, t) ensures n.leaf.start <= t { }
    } else {
      assert (h + [n])[0] == h[0];
      forall t | Due(h[0].leaf.start, n.overlap, n.leaf.from, t) ensures n.retried || n.leaf.start <= t {
        assert Due(lower, n.overlap, n.leaf.from, t);
      }
    }
  }

  lemma KeepsReaching(c: Collector, h: seq<Saved>, n: Saved)
    requires CollectorReaches(c, h)
    ensures CollectorReaches(c, h + [n])
  {
    assert h != [] ==> (h + [n])[0] == h[0];
  }

  /** The shape of a commit, without the batch it saved. */
  lemma CommitShape(s: System, i: nat, step: Step) returns (n: Saved, run: Run, d: Collector)
    requires Inv(s) && Enabled(s, i, step) && (step.Save? || step.SaveUnseen?)
    ensures var c := s.collectors[i]; c.Holding? && run == c.run && n.leaf == c.leaf && n.overlap == run.overlap && n.retried == c.retried
    ensures After(s, i, step).history == s.history + [n] && n.leaf.from <= n.leaf.through
    ensures if s.history == [] then run.committed.None? && n.leaf.start == run.lower else run.committed == Some(n.leaf.from)
    ensures After(s, i, step).collectors == s.collectors[i := d] && Carries(d, run, n)
  {
    var c := s.collectors[i];
    assert CollectorOk(c);
    n, run, d := SavedBy(c, step.ctx), c.run, CollectorAfter(s, i, step);
    CommitCompares(s.db, Offer(c, step.ctx).value, c.run.committed, c.leaf.through);
  }

  /** The collector stopped, or its run goes on from the commit. */
  predicate Carries(d: Collector, run: Run, n: Saved) {
    d.Idle? || (d.Scanning? && d.run.lower == run.lower && d.run.overlap == run.overlap && d.run.committed == Some(n.leaf.through))
  }

  lemma ReachesAfter(cs: seq<Collector>, h: seq<Saved>, i: nat, d: Collector, n: Saved, run: Run)
    requires AllReach(cs, h) && i < |cs| && cs[i].Holding? && run == cs[i].run && n.leaf == cs[i].leaf
    requires n.overlap == run.overlap && n.retried == cs[i].retried && n.leaf.from <= n.leaf.through
    requires if h == [] then run.committed.None? && n.leaf.start == run.lower else run.committed == Some(n.leaf.from)
    requires Carries(d, run, n)
    ensures AllReach(cs[i := d], h + [n])
  {
    assert CollectorReaches(cs[i], h);
    NextReaches(run.lower, run.committed, h, n);
    var after, all := cs[i := d], h + [n];
    forall k | 0 <= k < |after| ensures CollectorReaches(after[k], all) {
      if k != i { KeepsReaching(cs[k], h, n); }
    }
    forall k | 0 <= k < |all| ensures Reaches(all[k], all[0].leaf.start) {
      if k < |h| { assert Reaches(h[k], h[0].leaf.start); }
    }
  }

  lemma CommitReaches(s: System, i: nat, step: Step)
    requires Inv(s) && AllReach(s.collectors, s.history) && Enabled(s, i, step) && (step.Save? || step.SaveUnseen?)
    ensures AllReach(After(s, i, step).collectors, After(s, i, step).history)
  {
    var n, run, d := CommitShape(s, i, step);
    ReachesAfter(s.collectors, s.history, i, d, n, run);
  }

  lemma StepReaches(s: System, i: nat, step: Step)
    requires Inv(s) && AllReach(s.collectors, s.history) && Enabled(s, i, step)
    ensures AllReach(After(s, i, step).collectors, After(s, i, step).history)
  {
    if step.Save? || step.SaveUnseen? { CommitReaches(s, i, step); } else { MoveReaches(s, i, step); }
  }

  lemma {:induction false} ExecutionReaches(states: seq<System>, moves: seq<(nat, Step)>, k: nat)
    requires Execution(states, moves) && k < |states|
    ensures AllReach(states[k].collectors, states[k].history)
  {
    if k == 0 {
      forall i | 0 <= i < |states[0].collectors| ensures CollectorReaches(states[0].collectors[i], []) {
        assert states[0].collectors[i] in states[0].collectors;
      }
    } else {
      ExecutionReaches(states, moves, k - 1);
      ExecutionInv(states, moves, k - 1);
      StepReaches(states[k - 1], moves[k - 1].0, moves[k - 1].1);
    }
  }

  /**
   Late logs are found as far back as the overlap goes: in every reachable state a saved
   window, unless only its last second could be read, holds every consume or error log the
   site showed within the overlap before the seconds it owns, back to the first window's start.
   */
  lemma OverlapRead(states: seq<System>, moves: seq<(nat, Step)>, k: nat, i: nat, log: RemoteLog)
    requires Execution(states, moves) && k < |states| && i < |states[k].history| && !states[k].history[i].retried
    requires log in states[k].history[i].records && (log.kind == CONSUME_LOG || log.kind == ERROR_LOG)
    requires var s := states[k].history[i];
             s.leaf.from - s.overlap < log.createdAt <= s.leaf.through && states[k].history[0].leaf.start <= log.createdAt
    ensures log in states[k].history[i].Logs()
  {
    var s := states[k].history[i];
    ExecutionReaches(states, moves, k);
    assert Reaches(s, states[k].history[0].leaf.start);
    assert Due(states[k].history[0].leaf.start, s.overlap, s.leaf.from, log.createdAt);
    InWindowLogs(s.records, s.leaf.start, s.leaf.through, log);
  }

  lemma AttemptsStep(s: System, i: nat, step: Step)
    requires Inv(s) && Enabled(s, i, step) && AllAttempted(s.db.rows, s.db.attempts)
    ensures var t := After(s, i, step); AllAttempted(t.db.rows, t.db.attempts)
  {
    if step.Save? || step.SaveUnseen? {
      var c := s.collectors[i];
      WindowKeyed(step.ctx, c.run.cursor, WindowLogs(c.records, c.leaf.start, c.leaf.through));
      CommitAttempts(s.db, Offer(c, step.ctx).value, c.run.committed, c.leaf.through);
    }
  }

  /** Every stored revision has all its attempts. */
  lemma {:induction false} AttemptsStored(states: seq<System>, moves: seq<(nat, Step)>, k: nat)
    requires Execution(states, moves) && k < |states|
    ensures AllAttempted(states[k].db.rows, states[k].db.attempts)
  {
    if k > 0 {
      AttemptsStored(states, moves, k - 1);
      ExecutionInv(states, moves, k - 1);
      AttemptsStep(states[k - 1], moves[k - 1].0, moves[k - 1].1);
    }
  }

  // ---------- the main results ----------

  lemma ForwardTransitive(a: Database, b: Database, c: Database)
    requires Forward(a, b) && Forward(b, c)
    ensures Forward(a, c)
  {
    if !a.cursor.IsZero() { CursorLeTransitive(a.cursor, b.cursor, c.cursor); }
  }

  /** Between any two moments of any run, nothing moved back. */
  lemma {:induction false} NeverBack(states: seq<System>, moves: seq<(nat, Step)>, j: nat, k: nat)
    requires Execution(states, moves) && j <= k < |states|
    ensures Forward(states[j].db, states[k].db)
    decreases k
  {
    if j < k {
      NeverBack(states, moves, j, k - 1);
      ExecutionInv(states, moves, k - 1);
      StepKeeps(states[k - 1], moves[k - 1].0, moves[k - 1].1);
      ForwardTransitive(states[j].db, states[k - 1].db, states[k].db);
    } else {
      CompareLaws(states[j].db.cursor, states[j].db.cursor);
    }
  }

  /** The commit of a chain whose window read a given second. */
  lemma {:induction false} ReaderOf(h: seq<Saved>, n: nat, second: int) returns (i: nat)
    requires Linked(h) && 1 <= n <= |h| && h[0].leaf.start <= second <= h[n - 1].leaf.through
    requires forall j :: 0 <= j < |h| ==> ReadsItsRange(h[j].leaf)
    ensures i < n && h[i].leaf.start <= second <= h[i].leaf.through
  {
    if n == 1 {
      i := 0;
    } else if second > h[n - 2].leaf.through {
      i := n - 1;
      assert Succeeds(h[n - 2], h[n - 1]);
    } else {
      i := ReaderOf(h, n - 1, second);
    }
  }

  /**
   No second of log time is skipped. In every reachable state, every second from the start
   of the first commit up to the watermark was read by some complete, non-overflowing
   window, exactly that window's batch was saved, and everything in it is still represented.
   */
  lemma NoSecondSkipped(states: seq<System>, moves: seq<(nat, Step)>, k: nat, second: int) returns (i: nat)
    requires Execution(states, moves) && k < |states| && states[k].db.scanned.Some?
    requires states[k].history != [] ==> states[k].history[0].leaf.start <= second
    requires second <= states[k].db.scanned.value
    ensures i < |states[k].history|
    ensures var s := states[k].history[i];
            && s.leaf.start <= second <= s.leaf.through
            && !Overflows(s.records, s.leaf.start, s.leaf.through)
            && AllLocatable(s.Logs())
            && WindowBatch(s.ctx, s.batch.from, s.Logs()) == Some(s.batch)
            && BatchKept(states[k].db, s.batch) && AttemptsKept(states[k].db, s.batch)
  {
    ExecutionInv(states, moves, k);
    var h := states[k].history;
    forall j | 0 <= j < |h| ensures ReadsItsRange(h[j].leaf) { assert Faithful(h[j]); }
    i := ReaderOf(h, |h|, second);
    assert Faithful(h[i]);
    AttemptsStored(states, moves, k);
    WindowKeyed(h[i].ctx, h[i].batch.from, h[i].Logs());
    KeptWithAttempts(states[k].db, h[i].batch);
  }

  // ---------- nobody gets stuck ----------

  lemma PartLocatable(records: seq<RemoteLog>, start: int, end: int)
    requires AllLocatable(records)
    ensures AllLocatable(WindowLogs(records, start, end))
  {
    WindowExactly(records, start, end);
    var logs := WindowLogs(records, start, end);
    forall i | 0 <= i < |logs| ensures Locatable(logs[i]) { assert logs[i] in records; }
  }

  /**
   A collector with seconds left can always go on over a site of locatable logs: it reads its
   next window, or splits it, or reads its last second; only a single second that overflows
   by itself stops it.
   */
  lemma ScanProceeds(s: System, i: nat, records: seq<RemoteLog>)
    requires i < |s.collectors| && s.collectors[i].Scanning? && s.collectors[i].run.todo != [] && AllLocatable(records)
    ensures var head := s.collectors[i].run.todo[0];
            || Enabled(s, i, Read(records, false)) || Enabled(s, i, Split) || Enabled(s, i, Read(records, true))
            || (head.through - head.from <= 1 && Overflows(records, head.through, head.through))
  {
    var run := s.collectors[i].run;
    PartLocatable(records, LeafOf(run, false).start, run.todo[0].through);
    PartLocatable(records, LeafOf(run, true).start, run.todo[0].through);
  }

  function HeldLogs(c: Collector): seq<RemoteLog>
    requires c.Holding?
  {
    WindowLogs(c.records, c.leaf.start, c.leaf.through)
  }

  /** Saving a batch goes through exactly when the store stands where the run does and no request refuses. */
  lemma OfferSaved(db: Database, run: Run, b: Batch, through: int)
    requires GoodDatabase(db) && ValidBatch(b) && b.from == run.cursor && through > 0
    requires run.committed.Some? ==> run.committed.value <= through
    ensures Commit(db, b, run.committed, through).Success? <==>
            db.cursor == run.cursor && db.scanned == run.committed && NoneRefuses(db.rows, b.requests)
  {
    SavesExactly(db, b, run.committed, through);
  }

  lemma HeldWindow(s: System, i: nat)
    requires Inv(s) && i < |s.collectors| && s.collectors[i].Holding?
    ensures GoodDatabase(s.db) && Held(s.collectors[i])
  {
    assert CollectorOk(s.collectors[i]);
  }

  /** A window as it is held: locatable logs, and an end after the watermark. */
  ghost predicate Held(c: Collector) {
    && c.Holding? && AllLocatable(HeldLogs(c)) && c.leaf.through > 0
    && (c.run.committed.Some? ==> c.run.committed.value <= c.leaf.through)
  }

  lemma OfferedBatch(ctx: Context, from: Cursor, logs: seq<RemoteLog>) returns (b: Batch)
    requires ctx.source != DirectProbe && AllLocatable(logs) && WindowBatch(ctx, from, logs).Some?
    ensures WindowBatch(ctx, from, logs) == Some(b) && ValidBatch(b) && b.from == from
  {
    b := WindowBatch(ctx, from, logs).value;
    WindowKeyed(ctx, from, logs);
    OfferFrom(ctx, from, logs);
  }

  lemma HeldReachable(states: seq<System>, moves: seq<(nat, Step)>, k: nat, i: nat)
    requires Execution(states, moves) && k < |states| && i < |states[k].collectors| && states[k].collectors[i].Holding?
    ensures GoodDatabase(states[k].db) && Held(states[k].collectors[i])
  {
    ExecutionInv(states, moves, k);
    HeldWindow(states[k], i);
  }

  /** The logs give a batch, the store stands where the run does, and no request of the batch refuses. */
  ghost predicate MaySave(db: Database, c: Collector, ctx: Context)
    requires Held(c)
  {
    && Offer(c, ctx).Some? && db.cursor == c.run.cursor && db.scanned == c.run.committed
    && NoneRefuses(db.rows, Offer(c, ctx).value.requests)
  }

  lemma SavesWhen(db: Database, c: Collector, ctx: Context)
    requires GoodDatabase(db) && Held(c) && ctx.source != DirectProbe
    ensures CanSave(db, c, ctx) <==> MaySave(db, c, ctx)
  {
    if Offer(c, ctx).Some? {
      var b := OfferedBatch(ctx, c.run.cursor, HeldLogs(c));
      OfferSaved(db, c.run, b, c.leaf.through);
    }
  }

  /**
   In every reachable state a collector that holds a window can save it exactly when its logs
   give a batch (CollectedWindow.WindowAlwaysCommits says when they do), nobody saved since it
   began or last saved, and no request of the batch refuses.
   */
  lemma SaveProceeds(states: seq<System>, moves: seq<(nat, Step)>, k: nat, i: nat, ctx: Context)
    requires Execution(states, moves) && k < |states| && i < |states[k].collectors| && states[k].collectors[i].Holding?
    requires ctx.source != DirectProbe
    ensures Held(states[k].collectors[i])
    ensures CanSave(states[k].db, states[k].collectors[i], ctx) <==> MaySave(states[k].db, states[k].collectors[i], ctx)
  {
    HeldReachable(states, moves, k, i);
    SavesWhen(states[k].db, states[k].collectors[i], ctx);
  }

  lemma OfferFrom(ctx: Context, from: Cursor, logs: seq<RemoteLog>)
    requires ctx.source != DirectProbe && AllLocatable(logs) && WindowBatch(ctx, from, logs).Some?
    ensures WindowBatch(ctx, from, logs).value.from == from
  {
    CollectedBatch(ctx, from, Inputs(logs));
  }

  /** Commits form a chain in every reachable state, ending at the stored cursor and watermark. */
  lemma CommitsChain(states: seq<System>, moves: seq<(nat, Step)>, k: nat)
    requires Execution(states, moves) && k < |states|
    ensures Chain(states[k].history) && AtEnd(states[k].db, states[k].history)
    ensures GoodRows(states[k].db.rows)
  {
    ExecutionInv(states, moves, k);
  }

  /** A record visible in a window when it was read is part of what that window saved. */
  lemma VisibleRecordRead(s: Saved, log: RemoteLog)
    requires Faithful(s) && log in s.records && (log.kind == CONSUME_LOG || log.kind == ERROR_LOG)
    requires s.leaf.start <= log.createdAt <= s.leaf.through
    ensures log in s.Logs()
    ensures match ToInput(log)
            case Success(input) => input in Inputs(s.Logs())
            case Failure(reason) => QuarantineDigest(s.ctx.source, s.ctx.site, CursorOfLog(log)) in
                                    (set q <- s.batch.quarantines :: q.sourceHash)
  {
    WindowExactly(s.records, s.leaf.start, s.leaf.through);
    var k :| 0 <= k < |s.Logs()| && s.Logs()[k] == log;
    Translated(s.Logs(), k);
    if ToInput(log).Failure? { AsideQuarantined(s, log); }
  }

  lemma AsideQuarantined(s: Saved, log: RemoteLog)
    requires Faithful(s) && Locatable(log)
    requires exists j :: 0 <= j < |SetAside(s.Logs())| && SetAside(s.Logs())[j].0 == CursorOfLog(log)
    ensures QuarantineDigest(s.ctx.source, s.ctx.site, CursorOfLog(log)) in (set q <- s.batch.quarantines :: q.sourceHash)
  {
    var aside := SetAside(s.Logs());
    var j :| 0 <= j < |aside| && aside[j].0 == CursorOfLog(log);
    var extra := AsideFacts(s.ctx, aside);
    assert extra[j].sourceHash == QuarantineDigest(s.ctx.source, s.ctx.site, CursorOfLog(log));
    var b := ConvertByRequest(s.ctx, s.batch.from, Inputs(s.Logs())).value;
    assert s.batch.quarantines == b.quarantines + extra;
    assert extra[j] in s.batch.quarantines;
  }

  lemma {:induction false} Translated(logs: seq<RemoteLog>, k: nat)
    requires AllLocatable(logs) && k < |logs|
    ensures match ToInput(logs[k])
            case Success(input) => input in Inputs(logs)
            case Failure(reason) => exists j :: 0 <= j < |SetAside(logs)| && SetAside(logs)[j].0 == CursorOfLog(logs[k])
  {
    var n := |logs| - 1;
    if k < n {
      Translated(logs[..n], k);
      if ToInput(logs[k]).Failure? {
        var before := SetAside(logs[..n]);
        var j :| 0 <= j < |before| && before[j].0 == CursorOfLog(logs[k]);
        assert SetAside(logs)[j] == before[j];
      }
    } else if ToInput(logs[k]).Failure? {
      assert SetAside(logs)[|SetAside(logs)| - 1].0 == CursorOfLog(logs[k]);
    }
  }
}
