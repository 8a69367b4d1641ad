/** Bounded reading of one window of remote logs, and the recursive splitting of a scan range. */
module LogWindows {
  import opened Wrappers
  import opened Sequences
  import opened Cursors
  import opened RemoteLogs

  const PAGE_SIZE := 100
  const MAX_PAGES := 100
  const LIMIT := MAX_PAGES * PAGE_SIZE

  function InWindow(kind: int, start: int, end: int): RemoteLog -> bool {
    (log: RemoteLog) => log.kind == kind && start <= log.createdAt <= end
  }

  /** What the remote site holds for one type and window, in its own order. */
  function Matching(source: seq<RemoteLog>, kind: int, start: int, end: int): seq<RemoteLog> {
    Filter(InWindow(kind, start, end), source)
  }

  function Min(a: int, b: int): int { if a <= b then a else b }

  datatype Page = Page(items: seq<RemoteLog>, total: int)

  function PageOf(all: seq<RemoteLog>, number: nat): Page
    requires number >= 1
  {
    Page(all[Min((number - 1) * PAGE_SIZE, |all|)..Min(number * PAGE_SIZE, |all|)], |all|)
  }

  predicate LogLe(a: RemoteLog, b: RemoteLog) {
    if a.createdAt != b.createdAt then a.createdAt < b.createdAt
    else if LogOrder(a.kind) != LogOrder(b.kind) then LogOrder(a.kind) < LogOrder(b.kind)
    else a.id <= b.id
  }

  /** Every record of both types in the window, sorted. */
  function WindowLogs(source: seq<RemoteLog>, start: int, end: int): seq<RemoteLog> {
    StableSort(LogLe, Matching(source, CONSUME_LOG, start, end) + Matching(source, ERROR_LOG, start, end))
  }

  predicate Overflows(source: seq<RemoteLog>, start: int, end: int) {
    |Matching(source, CONSUME_LOG, start, end)| > LIMIT || |Matching(source, ERROR_LOG, start, end)| > LIMIT
  }

  /** Logs are ordered as their positions compare. */
  lemma LogOrderExactly(a: RemoteLog, b: RemoteLog)
    requires Locatable(a) && Locatable(b) && a.id < 0x8000_0000_0000_0000 && b.id < 0x8000_0000_0000_0000
    ensures LogLe(a, b) <==> CursorOfLog(a).Compare(CursorOfLog(b)) <= 0
  {
    CursorOrderIsNumeric(a.createdAt, a.kind, a.id, b.createdAt, b.kind, b.id);
  }

  /** A window holds exactly the consume and error logs of its seconds, and is too large past ten thousand of one type. */
  lemma WindowExactly(source: seq<RemoteLog>, start: int, end: int)
    ensures forall log :: log in WindowLogs(source, start, end) <==>
              log in source && (log.kind == 2 || log.kind == 5) && start <= log.createdAt <= end
    ensures Overflows(source, start, end) <==>
            || |Matching(source, 2, start, end)| > 10000
            || |Matching(source, 5, start, end)| > 10000
  {
    var consumed, failed := Matching(source, CONSUME_LOG, start, end), Matching(source, ERROR_LOG, start, end);
    FilterMembers(InWindow(CONSUME_LOG, start, end), source);
    FilterMembers(InWindow(ERROR_LOG, start, end), source);
    forall log ensures log in WindowLogs(source, start, end) <==> log in consumed + failed {
      assert log in WindowLogs(source, start, end) <==> log in multiset(WindowLogs(source, start, end));
      assert log in consumed + failed <==> log in multiset(consumed + failed);
    }
  }

  // ---------- the pager ----------

  /**
   A remote site. A steady one answers from its records or fails; any other may answer
   anything, which covers a source that changes between two pages.
   */
  class LogReader {
    const records: seq<RemoteLog>
    const steady: bool
    /** Over a reliable connection every page arrives. */
    const reliable: bool

    constructor (records: seq<RemoteLog>, steady: bool, reliable: bool)
      ensures this.records == records && this.steady == steady && this.reliable == reliable
    {
      this.records, this.steady, this.reliable := records, steady, reliable;
    }

    method Read(kind: int, start: int, end: int, number: nat) returns (r: Option<Page>)
      requires number >= 1
      ensures steady && r.Some? ==> r.value == PageOf(Matching(records, kind, start, end), number)
      ensures reliable ==> r.Some?
    {
      var lost: bool := *;
      if lost && !reliable { return None; }
      if steady {
        r := Some(PageOf(Matching(records, kind, start, end), number));
      } else {
        var page: Page := *;
        r := Some(page);
      }
    }
  }

  datatype Reading = Broken | TooMany | Complete(logs: seq<RemoteLog>)

  /** Reads every page of one type. */
  method ReadType(reader: LogReader, kind: int, start: int, end: int) returns (r: Reading)
    ensures r.Complete? ==> |r.logs| <= LIMIT
    ensures reader.steady && r.TooMany? ==> |Matching(reader.records, kind, start, end)| > LIMIT
    ensures reader.steady && r.Complete? ==> r.logs == Matching(reader.records, kind, start, end)
    ensures reader.steady && reader.reliable ==> !r.Broken?
  {
    ghost var all := Matching(reader.records, kind, start, end);
    var first := reader.Read(kind, start, end, 1);
    if first.None? || first.value.total < 0 { return Broken; }
    if first.value.total > LIMIT { return TooMany; }
    var logs, number := first.value.items, 2;
    while (number - 1) * PAGE_SIZE < first.value.total
      invariant number >= 2
      invariant reader.steady ==> logs == all[..Min((number - 1) * PAGE_SIZE, |all|)]
      decreases first.value.total - (number - 1) * PAGE_SIZE
    {
      var page := reader.Read(kind, start, end, number);
      if page.None? { return Broken; }
      if page.value.total > LIMIT { return TooMany; }
      logs := logs + page.value.items;
      if |page.value.items| == 0 || number * PAGE_SIZE >= page.value.total { break; }
      number := number + 1;
    }
    if |logs| > LIMIT { return TooMany; }
    r := Complete(logs);
  }

  lemma LogLeTotal()
    ensures TotalPreorder(LogLe)
  {
  }

  /** Reads one window: consume logs, then error logs, then one sort. */
  method ReadWindow(reader: LogReader, start: int, end: int) returns (r: Reading)
    ensures r.Complete? ==> Sorted(LogLe, r.logs) && |r.logs| <= 2 * LIMIT
    ensures reader.steady && !r.Broken? ==> (r.TooMany? <==> Overflows(reader.records, start, end))
    ensures reader.steady && r.Complete? ==> r.logs == WindowLogs(reader.records, start, end)
    ensures reader.steady && reader.reliable ==> !r.Broken?
  {
    var logs: seq<RemoteLog> := [];
    var consumed := ReadType(reader, CONSUME_LOG, start, end);
    if !consumed.Complete? { return consumed; }
    var failed := ReadType(reader, ERROR_LOG, start, end);
    if !failed.Complete? { return failed; }
    logs := consumed.logs + failed.logs;
    LogLeTotal();
    StableSortSorted(LogLe, logs);
    assert |multiset(StableSort(LogLe, logs))| == |multiset(logs)|;
    r := Complete(StableSort(LogLe, logs));
  }

  // ---------- the splitter ----------

  /** A committed window: it owns the seconds (from, through] and reads [start, through]. */
  datatype Leaf = Leaf(from: int, through: int, start: int)

  /** What scanning (from, through] visits, whether it meets an unreadable second, and how many ranges it considers. */
  datatype Plan = Plan(leaves: seq<Leaf>, dense: bool, ranges: nat)

  function WindowStart(lower: int, overlap: int, from: int): int {
    if from - overlap + 1 < lower then lower else from - overlap + 1
  }

  function Middle(from: int, through: int): int { from + (through - from) / 2 }

  function PlanScan(source: seq<RemoteLog>, lower: int, overlap: int, from: int, through: int): Plan
    decreases through - from
  {
    var start := WindowStart(lower, overlap, from);
    if !Overflows(source, start, through) then Plan([Leaf(from, through, start)], false, 1)
    else if through - from <= 1 then
      if Overflows(source, through, through) then Plan([], true, 1)
      else Plan([Leaf(from, through, through)], false, 1)
    else
      var m := Middle(from, through);
      var left := PlanScan(source, lower, overlap, from, m);
      if left.dense then Plan(left.leaves, true, left.ranges + 1)
      else
        var right := PlanScan(source, lower, overlap, m, through);
        Plan(left.leaves + right.leaves, right.dense, left.ranges + right.ranges + 1)
  }

  /** The leaves own adjacent ranges that make up (from, through]. */
  ghost predicate Tiles(leaves: seq<Leaf>, from: int, through: int) {
    && leaves != [] && leaves[0].from == from && leaves[|leaves| - 1].through == through
    && forall i :: 0 < i < |leaves| ==> leaves[i].from == leaves[i - 1].through
  }

  lemma TilesConcat(a: seq<Leaf>, b: seq<Leaf>, from: int, middle: int, through: int)
    requires Tiles(a, from, middle) && Tiles(b, middle, through)
    ensures Tiles(a + b, from, through)
  {
    forall i | 0 < i < |a + b| ensures (a + b)[i].from == (a + b)[i - 1].through {
      if i > |a| { assert (a + b)[i] == b[i - |a|] && (a + b)[i - 1] == b[i - 1 - |a|]; }
    }
  }

  /** Every leaf is readable, reads at least what it owns, and owns something when the range does. */
  ghost predicate Sound(source: seq<RemoteLog>, leaf: Leaf) {
    && !Overflows(source, leaf.start, leaf.through)
    && leaf.start <= leaf.from + 1
    && leaf.from <= leaf.through
  }

  lemma {:induction false} PlanTiles(source: seq<RemoteLog>, lower: int, overlap: int, from: int, through: int)
    requires from <= through && lower <= from + 1 && overlap >= 0
    ensures var p := PlanScan(source, lower, overlap, from, through);
            && (!p.dense ==> Tiles(p.leaves, from, through))
            && (forall i :: 0 <= i < |p.leaves| ==> Sound(source, p.leaves[i]))
            && (from < through ==> forall i :: 0 <= i < |p.leaves| ==> p.leaves[i].from < p.leaves[i].through)
    decreases through - from
  {
    var start := WindowStart(lower, overlap, from);
    if Overflows(source, start, through) && through - from > 1 {
      var m := Middle(from, through);
      PlanTiles(source, lower, overlap, from, m);
      PlanTiles(source, lower, overlap, m, through);
      var left, right := PlanScan(source, lower, overlap, from, m), PlanScan(source, lower, overlap, m, through);
      if !left.dense && !right.dense { TilesConcat(left.leaves, right.leaves, from, m, through); }
    }
  }

  /** A scan of n seconds considers at most max(1, 2n - 1) ranges. */
  lemma {:induction false} PlanRanges(source: seq<RemoteLog>, lower: int, overlap: int, from: int, through: int)
    requires from <= through
    ensures PlanScan(source, lower, overlap, from, through).ranges <=
            if through == from then 1 else 2 * (through - from) - 1
    decreases through - from
  {
    if Overflows(source, WindowStart(lower, overlap, from), through) && through - from > 1 {
      PlanRanges(source, lower, overlap, from, Middle(from, through));
      PlanRanges(source, lower, overlap, Middle(from, through), through);
    }
  }

  lemma {:induction false} MatchingGrows(source: seq<RemoteLog>, kind: int, start: int, end: int, start': int, end': int)
    requires start' <= start && end <= end'
    ensures |Matching(source, kind, start, end)| <= |Matching(source, kind, start', end')|
  {
    if source != [] { MatchingGrows(source[..|source| - 1], kind, start, end, start', end'); }
  }

  lemma OverflowGrows(source: seq<RemoteLog>, start: int, end: int, start': int, end': int)
    requires start' <= start && end <= end' && Overflows(source, start, end)
    ensures Overflows(source, start', end')
  {
    MatchingGrows(source, CONSUME_LOG, start, end, start', end');
    MatchingGrows(source, ERROR_LOG, start, end, start', end');
  }

  ghost predicate UnreadableSecond(source: seq<RemoteLog>, from: int, through: int) {
    exists s :: from < s <= through && Overflows(source, s, s)
  }

  /** The scan gives up exactly when some single second in range is beyond the page limit. */
  lemma {:induction false} PlanDense(source: seq<RemoteLog>, lower: int, overlap: int, from: int, through: int)
    requires from < through && lower <= from + 1 && overlap >= 0
    ensures PlanScan(source, lower, overlap, from, through).dense <==> UnreadableSecond(source, from, through)
    decreases through - from
  {
    var start := WindowStart(lower, overlap, from);
    if UnreadableSecond(source, from, through) {
      var s :| from < s <= through && Overflows(source, s, s);
      OverflowGrows(source, s, s, start, through);
    }
    if Overflows(source, start, through) {
      if through - from > 1 {
        var m := Middle(from, through);
        PlanDense(source, lower, overlap, from, m);
        PlanDense(source, lower, overlap, m, through);
        assert UnreadableSecond(source, from, through) <==>
               UnreadableSecond(source, from, m) || UnreadableSecond(source, m, through);
      } else {
        assert from < through <= through;
      }
    }
  }

  /** With nothing new to own, the scan gives up exactly when the last second is unreadable. */
  lemma PlanDenseEmpty(source: seq<RemoteLog>, lower: int, overlap: int, at: int)
    requires lower <= at && overlap >= 1
    ensures PlanScan(source, lower, overlap, at, at).dense <==> Overflows(source, at, at)
  {
    if Overflows(source, at, at) { OverflowGrows(source, at, at, WindowStart(lower, overlap, at), at); }
  }

  lemma {:induction false} OwnedSecond(leaves: seq<Leaf>, from: int, through: int, s: int) returns (i: nat)
    requires Tiles(leaves, from, through) && from < s <= through
    ensures i < |leaves| && leaves[i].from < s <= leaves[i].through
    decreases |leaves|
  {
    var n := |leaves| - 1;
    if leaves[n].from < s {
      i := n;
    } else {
      i := OwnedSecond(leaves[..n], from, leaves[n].from, s);
    }
  }

  /** Every consume or error record of the scanned seconds is read by some visited leaf. */
  lemma PlanCovers(source: seq<RemoteLog>, lower: int, overlap: int, from: int, through: int, log: RemoteLog)
    returns (i: nat)
    requires from < through && lower <= from + 1 && overlap >= 0
    requires !PlanScan(source, lower, overlap, from, through).dense
    requires log in source && from < log.createdAt <= through && (log.kind == CONSUME_LOG || log.kind == ERROR_LOG)
    ensures var leaves := PlanScan(source, lower, overlap, from, through).leaves;
            && i < |leaves| && leaves[i].from < log.createdAt <= leaves[i].through
            && log in WindowLogs(source, leaves[i].start, leaves[i].through)
  {
    PlanTiles(source, lower, overlap, from, through);
    var leaves := PlanScan(source, lower, overlap, from, through).leaves;
    i := OwnedSecond(leaves, from, through, log.createdAt);
    var consumed := Matching(source, CONSUME_LOG, leaves[i].start, leaves[i].through);
    var failed := Matching(source, ERROR_LOG, leaves[i].start, leaves[i].through);
    FilterMembers(InWindow(CONSUME_LOG, leaves[i].start, leaves[i].through), source);
    FilterMembers(InWindow(ERROR_LOG, leaves[i].start, leaves[i].through), source);
    assert log in consumed + failed;
    Batches.MultisetMembers(WindowLogs(source, leaves[i].start, leaves[i].through), consumed + failed);
  }

  // ---------- how far back a window reads ----------

  /** A second that a window after `from` is to read again: within the overlap, and not before the lower bound. */
  predicate Due(lower: int, overlap: int, from: int, t: int) { lower <= t && from - overlap < t }

  /** The records of one type that a window for (from, through] is to read. */
  function DueLogs(source: seq<RemoteLog>, kind: int, lower: int, overlap: int, from: int, through: int): seq<RemoteLog> {
    Filter((log: RemoteLog) => log.kind == kind && Due(lower, overlap, from, log.createdAt) && log.createdAt <= through, source)
  }

  /** They are more than the page limit allows. */
  predicate Crowded(source: seq<RemoteLog>, lower: int, overlap: int, from: int, through: int) {
    || |DueLogs(source, CONSUME_LOG, lower, overlap, from, through)| > LIMIT
    || |DueLogs(source, ERROR_LOG, lower, overlap, from, through)| > LIMIT
  }

  lemma {:induction false} FilterSame<T>(p: T -> bool, q: T -> bool, s: seq<T>)
    requires forall i :: 0 <= i < |s| ==> p(s[i]) == q(s[i])
    ensures Filter(p, s) == Filter(q, s)
  {
    if s != [] { FilterSame(p, q, s[..|s| - 1]); }
  }

  lemma StartIsDue(lower: int, overlap: int, from: int, t: int)
    ensures WindowStart(lower, overlap, from) <= t <==> Due(lower, overlap, from, t)
  {
  }

  lemma MatchingIsDue(source: seq<RemoteLog>, kind: int, lower: int, overlap: int, from: int, through: int)
    ensures Matching(source, kind, WindowStart(lower, overlap, from), through) == DueLogs(source, kind, lower, overlap, from, through)
  {
    FilterSame(
      InWindow(kind, WindowStart(lower, overlap, from), through),
      (log: RemoteLog) => log.kind == kind && Due(lower, overlap, from, log.createdAt) && log.createdAt <= through, source);
  }

  /** A visited window reads exactly the seconds that are due; one second with too many due records is read alone. */
  ghost predicate ReadsDue(source: seq<RemoteLog>, lower: int, overlap: int, leaf: Leaf) {
    && lower <= leaf.start
    && if Crowded(source, lower, overlap, leaf.from, leaf.through) then
         leaf.start == leaf.through && leaf.through - leaf.from <= 1
       else
         forall t :: leaf.start <= t <==> Due(lower, overlap, leaf.from, t)
  }

  lemma LeafReadsDue(source: seq<RemoteLog>, lower: int, overlap: int, from: int, through: int)
    requires from <= through && lower <= from + 1 && lower <= through
    ensures Overflows(source, WindowStart(lower, overlap, from), through) <==> Crowded(source, lower, overlap, from, through)
    ensures !Crowded(source, lower, overlap, from, through) ==>
              ReadsDue(source, lower, overlap, Leaf(from, through, WindowStart(lower, overlap, from)))
    ensures Crowded(source, lower, overlap, from, through) && through - from <= 1 ==>
              ReadsDue(source, lower, overlap, Leaf(from, through, through))
  {
    MatchingIsDue(source, CONSUME_LOG, lower, overlap, from, through);
    MatchingIsDue(source, ERROR_LOG, lower, overlap, from, through);
    forall t ensures WindowStart(lower, overlap, from) <= t <==> Due(lower, overlap, from, t) {
      StartIsDue(lower, overlap, from, t);
    }
  }

  /** Every window of a scan reads what is due for it, and none reads before the lower bound. */
  lemma {:induction false} PlanReadsDue(source: seq<RemoteLog>, lower: int, overlap: int, from: int, through: int)
    requires from <= through && lower <= from + 1 && lower <= through
    ensures forall leaf <- PlanScan(source, lower, overlap, from, through).leaves :: ReadsDue(source, lower, overlap, leaf)
    decreases through - from
  {
    LeafReadsDue(source, lower, overlap, from, through);
    if Overflows(source, WindowStart(lower, overlap, from), through) && through - from > 1 {
      PlanReadsDue(source, lower, overlap, from, Middle(from, through));
      PlanReadsDue(source, lower, overlap, Middle(from, through), through);
    }
  }

  lemma InWindowLogs(source: seq<RemoteLog>, start: int, through: int, log: RemoteLog)
    ensures log in WindowLogs(source, start, through) <==>
            log in source && (log.kind == CONSUME_LOG || log.kind == ERROR_LOG) && start <= log.createdAt <= through
  {
    WindowExactly(source, start, through);
  }

  /**
   A record of the overlap is read again: over a steady site every consume or error record
   within the overlap before the scanned seconds, or in them, is in a visited window. Only a
   record before them can be missed, and only when the first window had to be narrowed to
   its last second.
   */
  lemma PlanReaches(source: seq<RemoteLog>, lower: int, overlap: int, from: int, through: int, log: RemoteLog) returns (i: nat)
    requires from <= through && lower <= from + 1 && lower <= through && overlap >= 0
    requires !PlanScan(source, lower, overlap, from, through).dense
    requires log in source && (log.kind == CONSUME_LOG || log.kind == ERROR_LOG)
    requires Due(lower, overlap, from, log.createdAt) && log.createdAt <= through
    requires var leaves := PlanScan(source, lower, overlap, from, through).leaves;
             log.createdAt > from || (leaves != [] && !Crowded(source, lower, overlap, leaves[0].from, leaves[0].through))
    ensures var leaves := PlanScan(source, lower, overlap, from, through).leaves;
            i < |leaves| && log in WindowLogs(source, leaves[i].start, leaves[i].through)
  {
    var leaves := PlanScan(source, lower, overlap, from, through).leaves;
    PlanTiles(source, lower, overlap, from, through);
    if log.createdAt > from {
      i := PlanCovers(source, lower, overlap, from, through, log);
    } else {
      i := 0;
      PlanReadsDue(source, lower, overlap, from, through);
      assert leaves[0] in leaves;
      InWindowLogs(source, leaves[0].start, leaves[0].through, log);
    }
  }

  /** The middle splits a range into halves that differ by one second at most. */
  lemma MiddleHalves(from: int, through: int)
    requires from <= through
    ensures 0 <= (through - Middle(from, through)) - (Middle(from, through) - from) <= 1
  {
  }

  // ---------- the recursive walk ----------

  datatype WalkResult = Done | ReadFailed | TooDense | VisitFailed

  /** `after` extends `before` by an initial part of the leaves. */
  ghost predicate Partly(leaves: seq<Leaf>, before: seq<Leaf>, after: seq<Leaf>) {
    && |before| <= |after| <= |before| + |leaves|
    && after == before + leaves[..|after| - |before|]
  }

  /** A walk follows its plan, wherever it stops. */
  ghost predicate Follows(plan: Plan, r: WalkResult, before: seq<Leaf>, after: seq<Leaf>) {
    match r
    case Done => !plan.dense && after == before + plan.leaves
    case TooDense => plan.dense && after == before + plan.leaves
    case _ => Partly(plan.leaves, before, after)
  }

  lemma FollowsLeft(left: Plan, plan: Plan, rest: seq<Leaf>, r: WalkResult, before: seq<Leaf>, after: seq<Leaf>)
    requires Follows(left, r, before, after) && !r.Done?
    requires plan.leaves == left.leaves + (if left.dense then [] else rest) && (left.dense ==> plan.dense)
    ensures Follows(plan, r, before, after)
  {
    if !r.TooDense? {
      var k := |after| - |before|;
      assert plan.leaves[..k] == left.leaves[..k];
    }
  }

  lemma FollowsRight(
    left: Plan, right: Plan, plan: Plan, r: WalkResult, before: seq<Leaf>, middle: seq<Leaf>, after: seq<Leaf>)
    requires Follows(left, Done, before, middle) && Follows(right, r, middle, after)
    requires plan.leaves == left.leaves + right.leaves && plan.dense == right.dense
    ensures Follows(plan, r, before, after)
  {
    if r.ReadFailed? || r.VisitFailed? {
      var k := |after| - |middle|;
      assert plan.leaves[..|left.leaves| + k] == left.leaves + right.leaves[..k];
    }
  }
}
