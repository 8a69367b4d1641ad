/** One collection attempt of one site: read, convert and commit window by window. */
module CollectRun {
  import opened Wrappers
  import opened Sequences
  import opened Cursors
  import opened Measurement
  import opened Conversion
  import opened Batches
  import opened PerRequest
  import opened RemoteLogs
  import opened CollectedWindow
  import opened LogWindows
  import opened MeasurementStore
  import opened CollectionProtocol
  import Converter

  lemma SplitNext(logs: seq<RemoteLog>, i: nat)
    requires i < |logs| && AllLocatable(logs[..i]) && Locatable(logs[i])
    ensures AllLocatable(logs[..i + 1])
    ensures Inputs(logs[..i + 1]) == Inputs(logs[..i]) + if ToInput(logs[i]).Success? then [ToInput(logs[i]).value] else []
    ensures SetAside(logs[..i + 1]) ==
            SetAside(logs[..i]) + if ToInput(logs[i]).Failure? then [(CursorOfLog(logs[i]), ToInput(logs[i]).error)] else []
  {
    var s := logs[..i + 1];
    assert s[..|s| - 1] == logs[..i] && s[|s| - 1] == logs[i];
  }

  /** Sorts the logs of a window into inputs and logs set aside. */
  method SplitLogs(logs: seq<RemoteLog>) returns (r: Option<(seq<LogInput>, seq<(Cursor, Reason)>)>)
    ensures r.Some? <==> AllLocatable(logs)
    ensures r.Some? <==> forall log <- logs :: log.id >= 0 && log.createdAt > 0
    ensures r.Some? ==> r.value == (Inputs(logs), SetAside(logs)) && WindowSays(logs, r.value.0, r.value.1)
  {
    var inputs, aside, i := [], [], 0;
    while i < |logs|
      invariant i <= |logs| && AllLocatable(logs[..i])
      invariant inputs == Inputs(logs[..i]) && aside == SetAside(logs[..i])
    {
      var log := logs[i];
      if log.id < 0 || log.createdAt <= 0 { return None; }
      SplitNext(logs, i);
      var input := ToInput(log);
      if input.Success? {
        inputs := inputs + [input.value];
      } else {
        aside := aside + [(CursorOfLog(log), input.error)];
      }
      i := i + 1;
    }
    assert logs[..i] == logs;
    WindowSplits(logs);
    r := Some((inputs, aside));
  }

  /** The latest position among the batch and the logs set aside. */
  method LatestPosition(next: Cursor, aside: seq<(Cursor, Reason)>) returns (latest: Cursor)
    ensures latest == Furthest(next, aside) && FurthestSays(next, aside, latest)
  {
    FurthestExactly(next, aside);
    latest := next;
    var i := 0;
    while i < |aside|
      invariant i <= |aside| && latest == Furthest(next, aside[..i])
    {
      assert aside[..i + 1][..i] == aside[..i];
      latest := Later(latest, aside[i].0);
      i := i + 1;
    }
    assert aside[..i] == aside;
  }

  method ConvertWindow(ctx: Context, from: Cursor, logs: seq<RemoteLog>) returns (r: Option<Batch>)
    ensures r.Some? <==> AllLocatable(logs) && WindowBatch(ctx, from, logs).Some?
    ensures AllLocatable(logs) ==> r == WindowBatch(ctx, from, logs)
  {
    var split := SplitLogs(logs);
    if split.None? { return None; }
    var converted := Converter.ConvertRequests(ctx, from, split.value.0);
    if converted.None? { return None; }
    var latest := LatestPosition(converted.value.next, split.value.1);
    var facts := AsideFacts(ctx, split.value.1);
    var b := converted.value.(quarantines := converted.value.quarantines + facts, next := latest);
    var ok := Converter.Validate(b);
    r := if ok then Some(b) else None;
  }

  /** What reading a range found. */
  datatype Probed = Unread | Dense | Divide | Ready(leaf: Leaf, logs: seq<RemoteLog>)

  /** One scan over the store: what it may read, and the leaves committed so far. */
  class Sweep {
    const reader: LogReader
    const store: Store
    const lower: int
    const overlap: int
    var cursor: Cursor
    var committed: Option<int>
    var visited: seq<Leaf>
    var ranges: nat

    constructor (reader: LogReader, store: Store, lower: int, overlap: int)
      ensures this.reader == reader && this.store == store && this.lower == lower && this.overlap == overlap
      ensures cursor == store.cursor && committed == store.scanned && visited == [] && ranges == 0
    {
      this.reader, this.store, this.lower, this.overlap := reader, store, lower, overlap;
      cursor, committed, visited, ranges := store.cursor, store.scanned, [], 0;
    }

    /** What the sweep knows of the store, whoever else commits. */
    ghost predicate Ahead(before: seq<Leaf>, was: Option<int>)
      reads this
    {
      && before <= visited
      && committed == if visited == before then was else Some(visited[|visited| - 1].through)
    }

    /**
     Commits one window: on success the store moved by exactly the batch of the logs read,
     from the position the sweep last saw; otherwise neither the store nor the sweep changed.
     */
    method Visit(leaf: Leaf, logs: seq<RemoteLog>, ctx: Context) returns (ok: bool)
      modifies this`visited, this`cursor, this`committed, store
      ensures visited == if ok then old(visited) + [leaf] else old(visited)
      ensures ok ==> AllLocatable(logs) && WindowBatch(ctx, old(cursor), logs).Some?
      ensures ok ==> var b := WindowBatch(ctx, old(cursor), logs).value;
                     && Commit(old(store.State()), b, old(committed), leaf.through) == Success(store.State())
                     && cursor == b.next && committed == Some(leaf.through)
      ensures !ok ==> store.State() == old(store.State()) && cursor == old(cursor) && committed == old(committed)
      ensures !ok ==>
                || !AllLocatable(logs) || WindowBatch(ctx, old(cursor), logs).None?
                || Commit(old(store.State()), WindowBatch(ctx, old(cursor), logs).value, old(committed), leaf.through).Failure?
    {
      var b := ConvertWindow(ctx, cursor, logs);
      if b.None? { return false; }
      var saved := store.Save(b.value, committed, leaf.through);
      if saved.Failure? { return false; }
      cursor, committed := b.value.next, Some(leaf.through);
      visited := visited + [leaf];
      ok := true;
    }

    /** The channel bindings in force for a window, when they can be read. */
    method Bindings(start: int, through: int) returns (ctx: Option<Context>)
      ensures reader.reliable ==> ctx.Some?
    {
      var lost: bool := *;
      if lost && !reader.reliable { return None; }
      var found: Context := *;
      ctx := Some(found);
    }

    /** Reads the window of a range, then its last second alone when it is down to one second. */
    method Probe(from: int, through: int) returns (r: Probed)
      ensures reader.steady ==>
                var plan := PlanScan(reader.records, lower, overlap, from, through);
                match r
                case Unread => true
                case Dense => plan == Plan([], true, 1)
                case Divide => through - from > 1 && Overflows(reader.records, WindowStart(lower, overlap, from), through)
                case Ready(leaf, logs) =>
                  && plan == Plan([leaf], false, 1)
                  && logs == WindowLogs(reader.records, leaf.start, leaf.through)
      ensures reader.steady && reader.reliable ==> !r.Unread?
      ensures r.Ready? ==> r.leaf.from == from && r.leaf.through == through
      ensures r.Divide? ==> through - from > 1
    {
      var start := WindowStart(lower, overlap, from);
      var reading := ReadWindow(reader, start, through);
      if reading.Broken? { return Unread; }
      if reading.TooMany? {
        if through - from > 1 { return Divide; }
        start := through;
        reading := ReadWindow(reader, start, through);
        if reading.Broken? { return Unread; }
        if reading.TooMany? { return Dense; }
      }
      r := Ready(Leaf(from, through, start), reading.logs);
    }

    /** Looks up the bindings of the window, then commits it. */
    method CommitLeaf(leaf: Leaf, logs: seq<RemoteLog>) returns (ok: bool)
      modifies this`visited, this`cursor, this`committed, store
      ensures visited == if ok then old(visited) + [leaf] else old(visited)
      ensures ok ==> committed == Some(leaf.through) && store.scanned == ReadBackTime(leaf.through)
      ensures !ok ==> committed == old(committed) && store.State() == old(store.State())
    {
      var ctx := Bindings(leaf.start, leaf.through + 1);
      if ctx.None? { return false; }
      ok := Visit(leaf, logs, ctx.value);
    }

    /**
     Visits the planned leaves in order and stops at the first failure: what was visited
     is always a prefix of the plan, all of it on success.
     */
    method Walk(from: int, through: int) returns (r: WalkResult)
      modifies this, store
      ensures reader.steady ==> Follows(PlanScan(reader.records, lower, overlap, from, through), r, old(visited), visited)
      ensures reader.steady ==> ranges <= old(ranges) + PlanScan(reader.records, lower, overlap, from, through).ranges
      ensures reader.steady && reader.reliable ==> r != ReadFailed
      ensures Ahead(old(visited), old(committed)) && (r.Done? ==> committed == Some(through))
      ensures visited == old(visited) ==> store.State() == old(store.State())
      ensures visited != old(visited) ==> store.scanned == ReadBackTime(visited[|visited| - 1].through)
      decreases through - from
    {
      ranges := ranges + 1;
      var probe := Probe(from, through);
      match probe {
        case Unread => r := ReadFailed;
        case Dense => r := TooDense;
        case Divide => r := WalkHalves(from, through);
        case Ready(leaf, logs) =>
          var ok := CommitLeaf(leaf, logs);
          r := if ok then Done else VisitFailed;
      }
    }

    method WalkHalves(from: int, through: int) returns (r: WalkResult)
      requires through - from > 1
      requires reader.steady ==> Overflows(reader.records, WindowStart(lower, overlap, from), through)
      modifies this, store
      ensures reader.steady ==> Follows(PlanScan(reader.records, lower, overlap, from, through), r, old(visited), visited)
      ensures reader.steady ==> ranges + 1 <= old(ranges) + PlanScan(reader.records, lower, overlap, from, through).ranges
      ensures reader.steady && reader.reliable ==> r != ReadFailed
      ensures Ahead(old(visited), old(committed)) && (r.Done? ==> committed == Some(through))
      ensures visited == old(visited) ==> store.State() == old(store.State())
      ensures visited != old(visited) ==> store.scanned == ReadBackTime(visited[|visited| - 1].through)
      decreases through - from, 0
    {
      var m := Middle(from, through);
      ghost var before := visited;
      ghost var plan := PlanScan(reader.records, lower, overlap, from, through);
      ghost var left, right := PlanScan(reader.records, lower, overlap, from, m), PlanScan(reader.records, lower, overlap, m, through);
      r := Walk(from, m);
      if !r.Done? {
        if reader.steady { FollowsLeft(left, plan, right.leaves, r, before, visited); }
        return;
      }
      ghost var middle := visited;
      r := Walk(m, through);
      if reader.steady { FollowsRight(left, right, plan, r, before, middle, visited); }
    }
  }

  /**
   Every consume or error record that is due is in a visited window; one before the scanned
   seconds can only be missing when the first window was narrowed to its last second.
   */
  ghost predicate Gathered(records: seq<RemoteLog>, lower: int, overlap: int, from: int, now: int, visited: seq<Leaf>) {
    && visited != [] && (forall leaf <- visited :: lower <= leaf.start)
    && forall log <- records ::
         && (log.kind == CONSUME_LOG || log.kind == ERROR_LOG)
         && lower <= log.createdAt <= now && from - overlap < log.createdAt
         && (log.createdAt > from || !Crowded(records, lower, overlap, visited[0].from, visited[0].through)) ==>
           exists leaf <- visited :: log in WindowLogs(records, leaf.start, leaf.through)
  }

  lemma PlanGathers(records: seq<RemoteLog>, lower: int, overlap: int, from: int, now: int)
    requires from <= now && lower <= from + 1 && lower <= now && overlap >= 0
    requires !PlanScan(records, lower, overlap, from, now).dense
    ensures Gathered(records, lower, overlap, from, now, PlanScan(records, lower, overlap, from, now).leaves)
  {
    var leaves := PlanScan(records, lower, overlap, from, now).leaves;
    PlanTiles(records, lower, overlap, from, now);
    PlanReadsDue(records, lower, overlap, from, now);
    forall log | log in records && (log.kind == CONSUME_LOG || log.kind == ERROR_LOG)
                 && lower <= log.createdAt <= now && from - overlap < log.createdAt
                 && (log.createdAt > from || !Crowded(records, lower, overlap, leaves[0].from, leaves[0].through))
      ensures exists leaf <- leaves :: log in WindowLogs(records, leaf.start, leaf.through)
    {
      var i := PlanReaches(records, lower, overlap, from, now, log);
      assert leaves[i] in leaves;
    }
  }

  /** Everything due since the watermark, or of the last day where there is none. */
  ghost predicate GatheredSince(scanned: Option<int>, records: seq<RemoteLog>, overlap: nat, now: int, visited: seq<Leaf>) {
    match scanned
    case Some(at) => Gathered(records, at - overlap, overlap, at, now, visited)
    case None => Gathered(records, now - 86400, overlap, now - 86401, now, visited)
  }

  lemma RunGathers(db: Database, records: seq<RemoteLog>, overlap: nat, now: int, visited: seq<Leaf>)
    requires CanBegin(db, now)
    requires var run := Started(db, now, overlap);
             var plan := PlanScan(records, run.lower, overlap, run.todo[0].from, now);
             !plan.dense && visited == plan.leaves
    ensures GatheredSince(db.scanned, records, overlap, now, visited)
  {
    var run := Started(db, now, overlap);
    PlanGathers(records, run.lower, overlap, run.todo[0].from, now);
  }

  datatype Outcome = WatermarkAhead | Collected | Stopped(why: WalkResult)

  /** One scan from the watermark, or over the last day where there is none. */
  method CollectPlan(store: Store, reader: LogReader, now: int, overlap: nat) returns (r: Outcome, visited: seq<Leaf>)
    requires now > INITIAL_LOOKBACK
    modifies store
    ensures r.WatermarkAhead? <==> !CanBegin(old(store.State()), now)
    ensures !r.WatermarkAhead? ==>
              var run := Started(old(store.State()), now, overlap);
              var plan := PlanScan(reader.records, run.lower, overlap, run.todo[0].from, now);
              && (reader.steady ==> Partly(plan.leaves, [], visited))
              && (reader.steady && r.Collected? ==> !plan.dense && visited == plan.leaves)
              && (reader.steady && r == Stopped(TooDense) ==> plan.dense && visited == plan.leaves)
    ensures reader.steady && reader.reliable ==> r != Stopped(ReadFailed)
    ensures r.Collected? ==> store.scanned == Some(now)
    ensures visited == [] ==> store.State() == old(store.State())
    ensures visited != [] ==> store.scanned == ReadBackTime(visited[|visited| - 1].through)
  {
    visited := [];
    if store.scanned.Some? && now < store.scanned.value { return WatermarkAhead, []; }
    var run := Started(Database(store.cursor, store.scanned, [], {}, {}), now, overlap);
    var sweep := new Sweep(reader, store, run.lower, overlap);
    var walked := sweep.Walk(run.todo[0].from, now);
    visited := sweep.visited;
    r := if walked.Done? then Collected else Stopped(walked);
  }

  /**
   Collects up to `now`. Over a steady site the committed windows are a prefix of the plan
   for the seconds since the watermark; success means that the watermark reached `now` and
   that every log since the watermark and within the overlap before it was read.
   */
  method Collect(store: Store, reader: LogReader, now: int, overlap: nat) returns (r: Outcome, visited: seq<Leaf>)
    requires now > INITIAL_LOOKBACK
    modifies store
    ensures r.WatermarkAhead? <==> !CanBegin(old(store.State()), now)
    ensures !r.WatermarkAhead? ==>
              var run := Started(old(store.State()), now, overlap);
              var plan := PlanScan(reader.records, run.lower, overlap, run.todo[0].from, now);
              && (reader.steady ==> Partly(plan.leaves, [], visited))
              && (reader.steady && r.Collected? ==> !plan.dense && visited == plan.leaves)
              && (reader.steady && r == Stopped(TooDense) ==> plan.dense && visited == plan.leaves)
    ensures reader.steady && r.Collected? ==>
              GatheredSince(old(store.scanned), reader.records, overlap, now, visited)
    ensures reader.steady && reader.reliable ==> r != Stopped(ReadFailed)
    ensures r.Collected? ==> store.scanned == Some(now)
    ensures visited == [] ==> store.State() == old(store.State())
    ensures visited != [] ==> store.scanned == ReadBackTime(visited[|visited| - 1].through)
  {
    r, visited := CollectPlan(store, reader, now, overlap);
    if reader.steady && r.Collected? { RunGathers(old(store.State()), reader.records, overlap, now, visited); }
  }
}
