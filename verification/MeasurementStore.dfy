/** The transactional store: request revisions, attempts, quarantines, and the guarded cursor row. */
module MeasurementStore {
  import opened Wrappers
  import opened Sequences
  import opened Cursors
  import opened Measurement
  import opened Conversion
  import Converter

  const MAX_REVISION := 0x7FFF_FFFF

  /** One revision of a request. `key` is the unique source event key. */
  datatype Row = Row(hash: Digest, key: Digest, revision: nat, terminal: Cursor, current: bool)

  /** An attempt row is unique by revision and ordinal. */
  datatype AttemptRow = AttemptRow(revisionKey: Digest, ordinal: nat)

  datatype Database = Database(
    cursor: Cursor, scanned: Option<int>, rows: seq<Row>, attempts: set<AttemptRow>, quarantined: set<Digest>)

  datatype SaveError = InvalidBatch | InvalidWindow | CursorConflict | RevisionLimit | KeyExists

  // ---------- one request revision ----------

  function CurrentIndex(rows: seq<Row>, hash: Digest): (k: nat)
    ensures k <= |rows|
    ensures k < |rows| ==> rows[k].hash == hash && rows[k].current
    ensures k == |rows| ==> forall i :: 0 <= i < |rows| ==> rows[i].hash != hash || !rows[i].current
  {
    if rows == [] then 0
    else if rows[0].hash == hash && rows[0].current then 0
    else 1 + CurrentIndex(rows[1..], hash)
  }

  predicate HasKey(rows: seq<Row>, key: Digest) { exists i :: 0 <= i < |rows| && rows[i].key == key }

  /** Inserting ignores an existing key, which the caller then reports. */
  function Insert(rows: seq<Row>, row: Row): Result<seq<Row>, SaveError> {
    if HasKey(rows, row.key) then Failure(KeyExists) else Success(rows + [row])
  }

  /** The fact adds nothing: it is the current revision, or older than it. */
  predicate Stale(row: Row, fact: RequestFact) {
    fact.sourceHash == row.key || fact.terminal.Compare(row.terminal) < 0
  }

  function Revise(rows: seq<Row>, fact: RequestFact): Result<seq<Row>, SaveError> {
    var k := CurrentIndex(rows, fact.requestHash);
    if k == |rows| then
      Insert(rows, Row(fact.requestHash, fact.sourceHash, 1, fact.terminal, true))
    else if Stale(rows[k], fact) then
      Success(rows)
    else if rows[k].revision >= MAX_REVISION then
      Failure(RevisionLimit)
    else
      Insert(rows[k := rows[k].(current := false)],
             Row(fact.requestHash, fact.sourceHash, rows[k].revision + 1, fact.terminal, true))
  }

  predicate Writes(rows: seq<Row>, fact: RequestFact) {
    var k := CurrentIndex(rows, fact.requestHash);
    k == |rows| || !Stale(rows[k], fact)
  }

  /** All requests in order; the first refusal rolls everything back. */
  function ReviseAll(rows: seq<Row>, facts: seq<RequestFact>): Result<seq<Row>, SaveError> {
    if facts == [] then Success(rows)
    else
      var before := ReviseAll(rows, facts[..|facts| - 1]);
      if before.Failure? then before else Revise(before.value, facts[|facts| - 1])
  }

  /** The facts of the batch that get a new revision, counted in order. */
  function Written(rows: seq<Row>, facts: seq<RequestFact>): set<Digest>
    requires ReviseAll(rows, facts).Success?
  {
    if facts == [] then {}
    else
      var before, fact := facts[..|facts| - 1], facts[|facts| - 1];
      Written(rows, before) + if Writes(ReviseAll(rows, before).value, fact) then {fact.requestHash} else {}
  }

  /** Attempt rows of the freshly written revisions. */
  function NewAttempts(written: set<Digest>, requests: seq<RequestFact>, attempts: seq<AttemptFact>): set<AttemptRow> {
    set r, a | r in requests && a in attempts && a.requestHash == r.requestHash && r.requestHash in written
      :: AttemptRow(r.sourceHash, a.ordinal)
  }

  /** What reading the stored cursor gives back. */
  function ReadBack(c: Cursor): Cursor { if c.at > 0 && c.source != "" then c else ZERO_CURSOR }

  function ReadBackTime(at: int): Option<int> { if at > 0 then Some(at) else None }

  ghost function Commit(db: Database, b: Batch, scanFrom: Option<int>, scanThrough: int): Result<Database, SaveError> {
    if !ValidBatch(b) then Failure(InvalidBatch)
    else if scanThrough == ZERO_TIME || (scanFrom.Some? && scanThrough < scanFrom.value) then Failure(InvalidWindow)
    else if db.cursor.Compare(b.from) != 0 || db.scanned != scanFrom then Failure(CursorConflict)
    else
      var rows := ReviseAll(db.rows, b.requests);
      if rows.Failure? then Failure(rows.error)
      else
        var next := if b.next.IsZero() then b.from else b.next;
        Success(Database(
          ReadBack(next), ReadBackTime(scanThrough), rows.value,
          db.attempts + NewAttempts(Written(db.rows, b.requests), b.requests, b.attempts),
          db.quarantined + (set q | q in b.quarantines :: q.sourceHash)))
  }

  // ---------- what every sequence of saves keeps ----------

  function OfHash(hash: Digest): Row -> bool { (r: Row) => r.hash == hash }

  function History(rows: seq<Row>, hash: Digest): seq<Row> { Filter(OfHash(hash), rows) }

  /** Revisions count up from one, only the last is current, and terminal cursors never go back. */
  ghost predicate GoodHistory(h: seq<Row>) {
    && (forall i :: 0 <= i < |h| ==> h[i].revision == i + 1 && (h[i].current <==> i == |h| - 1))
    && forall i, j :: 0 <= i < j < |h| ==> CursorLe(h[i].terminal, h[j].terminal)
  }

  ghost predicate RowKeysDistinct(rows: seq<Row>) {
    forall i, j :: 0 <= i < j < |rows| ==> rows[i].key != rows[j].key
  }

  ghost predicate GoodRows(rows: seq<Row>) {
    RowKeysDistinct(rows) && forall hash :: GoodHistory(History(rows, hash))
  }

  lemma {:induction false} HistoryUpdate(rows: seq<Row>, k: nat, row: Row, hash: Digest)
    requires k < |rows| && row.hash == rows[k].hash
    requires row.hash == hash
    requires forall i :: k < i < |rows| ==> rows[i].hash != hash
    ensures History(rows, hash) != []
    ensures History(rows, hash)[|History(rows, hash)| - 1] == rows[k]
    ensures History(rows[k := row], hash) == History(rows, hash)[..|History(rows, hash)| - 1] + [row]
  {
    var n := |rows| - 1;
    if k == n {
      assert rows[k := row][..n] == rows[..n];
    } else {
      HistoryUpdate(rows[..n], k, row, hash);
      assert rows[k := row][..n] == rows[..n][k := row];
    }
  }

  lemma {:induction false} HistoryElsewhere(rows: seq<Row>, k: nat, row: Row, hash: Digest)
    requires k < |rows| && row.hash == rows[k].hash != hash
    ensures History(rows[k := row], hash) == History(rows, hash)
  {
    var n := |rows| - 1;
    if k == n {
      assert rows[k := row][..n] == rows[..n];
    } else {
      HistoryElsewhere(rows[..n], k, row, hash);
      assert rows[k := row][..n] == rows[..n][k := row];
    }
  }

  /** In a good table the current row of a hash is the last row of its history. */
  lemma {:induction false} CurrentIsLast(rows: seq<Row>, hash: Digest)
    requires GoodHistory(History(rows, hash))
    ensures var k := CurrentIndex(rows, hash);
            && (k == |rows| <==> History(rows, hash) == [])
            && (k < |rows| ==> forall i :: k < i < |rows| ==> rows[i].hash != hash)
  {
    FilterMembers(OfHash(hash), rows);
    var h, k := History(rows, hash), CurrentIndex(rows, hash);
    if h != [] {
      var last := h[|h| - 1];
      assert last in rows && last.current && last.hash == hash;
      var j :| 0 <= j < |rows| && rows[j] == last;
    }
    if k < |rows| {
      assert rows[k] in h;
      AfterCurrent(rows, k, hash);
    }
  }

  lemma AfterCurrent(rows: seq<Row>, k: nat, hash: Digest)
    requires k < |rows| && rows[k].hash == hash && rows[k].current && GoodHistory(History(rows, hash))
    ensures forall i :: k < i < |rows| ==> rows[i].hash != hash
  {
    var left, right := rows[..k + 1], rows[k + 1..];
    assert rows == left + right;
    FilterConcat(OfHash(hash), left, right);
    var a, b := History(left, hash), History(right, hash);
    assert left[..k] == rows[..k] && left[k] == rows[k];
    assert a[|a| - 1] == rows[k];
    assert History(rows, hash)[|a| - 1] == rows[k];
    FilterMembers(OfHash(hash), right);
    assert |a| - 1 == |a + b| - 1;
    forall i | k < i < |rows| ensures rows[i].hash != hash {
      assert right[i - k - 1] == rows[i];
      assert rows[i] !in b;
    }
  }

  lemma HistorySnoc(rows: seq<Row>, row: Row, hash: Digest)
    ensures History(rows + [row], hash) == if row.hash == hash then History(rows, hash) + [row] else History(rows, hash)
  {
    FilterSnoc(OfHash(hash), rows, row);
  }

  lemma InsertKeeps(rows: seq<Row>, row: Row)
    requires RowKeysDistinct(rows) && !HasKey(rows, row.key)
    ensures RowKeysDistinct(rows + [row])
  {
  }

  /** What writing one revision does to the histories. */
  lemma ReviseHistory(rows: seq<Row>, fact: RequestFact, hash: Digest)
    requires GoodRows(rows) && Revise(rows, fact).Success? && Writes(rows, fact)
    ensures var h := History(rows, hash);
            History(Revise(rows, fact).value, hash) ==
            if hash != fact.requestHash then h
            else (if h == [] then [] else h[..|h| - 1] + [h[|h| - 1].(current := false)]) +
                 [Row(hash, fact.sourceHash, |h| + 1, fact.terminal, true)]
    ensures hash == fact.requestHash && History(rows, hash) != [] ==>
              CursorLe(History(rows, hash)[|History(rows, hash)| - 1].terminal, fact.terminal)
  {
    var k := CurrentIndex(rows, fact.requestHash);
    CurrentIsLast(rows, fact.requestHash);
    if k < |rows| {
      var retired := rows[k].(current := false);
      HistoryUpdate(rows, k, retired, fact.requestHash);
      if hash != fact.requestHash { HistoryElsewhere(rows, k, retired, hash); }
      CompareLaws(fact.terminal, rows[k].terminal);
      HistorySnoc(rows[k := retired], Row(fact.requestHash, fact.sourceHash, rows[k].revision + 1, fact.terminal, true), hash);
    } else {
      HistorySnoc(rows, Row(fact.requestHash, fact.sourceHash, 1, fact.terminal, true), hash);
    }
  }

  lemma ExtendHistory(h: seq<Row>, hash: Digest, key: Digest, terminal: Cursor)
    requires GoodHistory(h) && (h != [] ==> CursorLe(h[|h| - 1].terminal, terminal))
    ensures GoodHistory(
              (if h == [] then [] else h[..|h| - 1] + [h[|h| - 1].(current := false)]) +
              [Row(hash, key, |h| + 1, terminal, true)])
  {
    var n := |h|;
    var g := (if h == [] then [] else h[..n - 1] + [h[n - 1].(current := false)]) + [Row(hash, key, n + 1, terminal, true)];
    forall i | 0 <= i < n ensures CursorLe(g[i].terminal, terminal) {
      CompareLaws(h[i].terminal, h[i].terminal);
      if i < n - 1 { CursorLeTransitive(h[i].terminal, h[n - 1].terminal, terminal); }
    }
  }

  lemma ReviseKeys(rows: seq<Row>, fact: RequestFact)
    requires RowKeysDistinct(rows) && Revise(rows, fact).Success?
    ensures RowKeysDistinct(Revise(rows, fact).value)
    ensures forall key :: HasKey(rows, key) ==> HasKey(Revise(rows, fact).value, key)
    ensures HasKey(Revise(rows, fact).value, fact.sourceHash) || !Writes(rows, fact)
  {
    var k := CurrentIndex(rows, fact.requestHash);
    if Writes(rows, fact) {
      var base := if k == |rows| then rows else rows[k := rows[k].(current := false)];
      var row := Row(fact.requestHash, fact.sourceHash, if k == |rows| then 1 else rows[k].revision + 1, fact.terminal, true);
      assert forall i :: 0 <= i < |rows| ==> base[i].key == rows[i].key;
      InsertKeeps(base, row);
      assert (base + [row])[|base|] == row;
      forall key | HasKey(rows, key) ensures HasKey(base + [row], key) {
        var i :| 0 <= i < |rows| && rows[i].key == key;
        assert (base + [row])[i].key == key;
      }
    }
  }

  /** A revision keeps the table good. */
  lemma ReviseGood(rows: seq<Row>, fact: RequestFact)
    requires GoodRows(rows) && Revise(rows, fact).Success?
    ensures GoodRows(Revise(rows, fact).value)
  {
    if Writes(rows, fact) {
      ReviseKeys(rows, fact);
      forall hash ensures GoodHistory(History(Revise(rows, fact).value, hash)) {
        ReviseHistory(rows, fact, hash);
        if hash == fact.requestHash { ExtendHistory(History(rows, hash), hash, fact.sourceHash, fact.terminal); }
      }
    }
  }

  lemma {:induction false} ReviseAllGood(rows: seq<Row>, facts: seq<RequestFact>)
    requires GoodRows(rows) && ReviseAll(rows, facts).Success?
    ensures GoodRows(ReviseAll(rows, facts).value)
    ensures forall key :: HasKey(rows, key) ==> HasKey(ReviseAll(rows, facts).value, key)
  {
    if facts != [] {
      var before := facts[..|facts| - 1];
      ReviseAllGood(rows, before);
      ReviseGood(ReviseAll(rows, before).value, facts[|facts| - 1]);
      ReviseKeys(ReviseAll(rows, before).value, facts[|facts| - 1]);
    }
  }

  ghost predicate GoodDatabase(db: Database) {
    GoodRows(db.rows) && ReadBack(db.cursor) == db.cursor && (db.scanned.Some? ==> db.scanned.value > 0)
  }

  /** Every save keeps the revision histories good and never moves the cursor or the watermark back. */
  lemma CommitKeeps(db: Database, b: Batch, scanFrom: Option<int>, scanThrough: int)
    requires GoodDatabase(db) && Commit(db, b, scanFrom, scanThrough).Success?
    ensures var after := Commit(db, b, scanFrom, scanThrough).value;
            && GoodDatabase(after)
            && (db.scanned.Some? ==> db.scanned.value <= after.scanned.value)
            && (!db.cursor.IsZero() ==> !after.cursor.IsZero() && CursorLe(db.cursor, after.cursor))
            && forall key :: HasKey(db.rows, key) ==> HasKey(after.rows, key)
  {
    ReviseAllGood(db.rows, b.requests);
    CompareLaws(db.cursor, b.from);
    CompareLaws(db.cursor, db.cursor);
    if !db.cursor.IsZero() && !b.next.IsZero() {
      assert b.next.Valid();
      assert b.next.source != "";
    }
  }

  // ---------- attempts ----------

  /** Every attempt the key lists has its row. */
  ghost predicate HasAttempts(attempts: set<AttemptRow>, key: Digest) {
    key.RevisionDigest? ==> forall n: nat :: 1 <= n <= |key.attempts| ==> AttemptRow(key, n) in attempts
  }

  ghost predicate AllAttempted(rows: seq<Row>, attempts: set<AttemptRow>) {
    forall key :: HasKey(rows, key) ==> HasAttempts(attempts, key)
  }

  lemma ReviseNewKeys(rows: seq<Row>, fact: RequestFact, key: Digest)
    requires Revise(rows, fact).Success? && HasKey(Revise(rows, fact).value, key)
    ensures HasKey(rows, key) || (Writes(rows, fact) && key == fact.sourceHash)
  {
    var after := Revise(rows, fact).value;
    var i :| 0 <= i < |after| && after[i].key == key;
    if i < |rows| { assert rows[i].key == key; }
  }

  lemma {:induction false} ReviseAllNewKeys(rows: seq<Row>, facts: seq<RequestFact>, key: Digest)
    requires ReviseAll(rows, facts).Success? && HasKey(ReviseAll(rows, facts).value, key)
    ensures HasKey(rows, key) || exists f <- facts :: f.sourceHash == key && f.requestHash in Written(rows, facts)
  {
    if facts != [] {
      var before, fact := facts[..|facts| - 1], facts[|facts| - 1];
      var middle := ReviseAll(rows, before).value;
      ReviseNewKeys(middle, fact, key);
      if HasKey(middle, key) {
        ReviseAllNewKeys(rows, before, key);
        if !HasKey(rows, key) {
          var f :| f in before && f.sourceHash == key && f.requestHash in Written(rows, before);
          assert f in facts && f.requestHash in Written(rows, facts);
        }
      } else {
        assert fact in facts && fact.requestHash in Written(rows, facts);
      }
    }
  }

  lemma OrdinalOf(attempts: seq<AttemptFact>, hash: Digest, n: nat) returns (a: AttemptFact)
    requires n in Ordinals(attempts, hash)
    ensures a in attempts && a.requestHash == hash && a.ordinal == n
  {
    var i :| 0 <= i < |attempts| && attempts[i].requestHash == hash && attempts[i].ordinal == n;
    a := attempts[i];
  }

  /** The attempts of a valid batch are the ones their requests list. */
  lemma ListedAttempt(b: Batch, r: RequestFact, a: AttemptFact)
    requires ValidBatch(b) && r in b.requests && a in b.attempts && a.requestHash == r.requestHash && Keyed(r)
    ensures 1 <= a.ordinal <= |r.sourceHash.attempts|
  {
    assert Complete(r, b.attempts);
    var j :| 0 <= j < |b.attempts| && b.attempts[j] == a;
    assert a.ordinal in Ordinals(b.attempts, r.requestHash);
  }

  /** A save stores every attempt of the revisions it writes. */
  lemma CommitAttempts(db: Database, b: Batch, scanFrom: Option<int>, scanThrough: int)
    requires AllAttempted(db.rows, db.attempts) && Commit(db, b, scanFrom, scanThrough).Success?
    requires forall r <- b.requests :: Keyed(r)
    ensures var after := Commit(db, b, scanFrom, scanThrough).value; AllAttempted(after.rows, after.attempts)
  {
    var after := Commit(db, b, scanFrom, scanThrough).value;
    forall key, n: nat | HasKey(after.rows, key) && key.RevisionDigest? && 1 <= n <= |key.attempts|
      ensures AttemptRow(key, n) in after.attempts
    {
      ReviseAllNewKeys(db.rows, b.requests, key);
      if HasKey(db.rows, key) {
        assert HasAttempts(db.attempts, key);
      } else {
        var r :| r in b.requests && r.sourceHash == key && r.requestHash in Written(db.rows, b.requests);
        assert Keyed(r) && Complete(r, b.attempts);
        var a := OrdinalOf(b.attempts, r.requestHash, n);
        assert AttemptRow(r.sourceHash, a.ordinal) in NewAttempts(Written(db.rows, b.requests), b.requests, b.attempts);
      }
    }
  }

  // ---------- what a save comes to, per request ----------

  /** The fact is a new revision: not the one stored last, and its request does not end before that one. */
  predicate Advances(h: seq<Row>, fact: RequestFact) {
    h == [] || (fact.sourceHash != h[|h| - 1].key && fact.terminal.Compare(h[|h| - 1].terminal) >= 0)
  }

  /** The history with the fact as its latest revision, where it is one. */
  function Advanced(h: seq<Row>, fact: RequestFact): seq<Row> {
    var next := Row(fact.requestHash, fact.sourceHash, |h| + 1, fact.terminal, true);
    if !Advances(h, fact) then h
    else if h == [] then [next]
    else h[..|h| - 1] + [h[|h| - 1].(current := false), next]
  }

  lemma CurrentRow(rows: seq<Row>, hash: Digest)
    requires GoodRows(rows)
    ensures var k, h := CurrentIndex(rows, hash), History(rows, hash);
            (k == |rows| <==> h == []) && (k < |rows| ==> rows[k] == h[|h| - 1])
  {
    var k := CurrentIndex(rows, hash);
    CurrentIsLast(rows, hash);
    if k < |rows| { HistoryUpdate(rows, k, rows[k], hash); }
  }

  /** One revision, in terms of the history of its request. */
  lemma ReviseSays(rows: seq<Row>, fact: RequestFact)
    requires GoodRows(rows)
    ensures Writes(rows, fact) <==> Advances(History(rows, fact.requestHash), fact)
    ensures Revise(rows, fact).Success? <==>
            (Advances(History(rows, fact.requestHash), fact) ==>
               |History(rows, fact.requestHash)| < MAX_REVISION && !HasKey(rows, fact.sourceHash))
  {
    var k, h := CurrentIndex(rows, fact.requestHash), History(rows, fact.requestHash);
    CurrentRow(rows, fact.requestHash);
    assert GoodHistory(h);
    if k < |rows| {
      var base := rows[k := rows[k].(current := false)];
      assert forall i :: 0 <= i < |rows| ==> base[i].key == rows[i].key;
      assert HasKey(base, fact.sourceHash) <==> HasKey(rows, fact.sourceHash) by {
        if HasKey(rows, fact.sourceHash) {
          var i :| 0 <= i < |rows| && rows[i].key == fact.sourceHash;
          assert base[i].key == fact.sourceHash;
        }
      }
    }
  }

  lemma ReviseAdvances(rows: seq<Row>, fact: RequestFact, hash: Digest)
    requires GoodRows(rows) && Revise(rows, fact).Success?
    ensures History(Revise(rows, fact).value, hash) ==
            if hash == fact.requestHash then Advanced(History(rows, hash), fact) else History(rows, hash)
  {
    ReviseSays(rows, fact);
    if Writes(rows, fact) { ReviseHistory(rows, fact, hash); }
  }

  /** Every request of the facts has its history advanced by its own fact, and no other history moves. */
  lemma {:induction false} HistoriesAdvance(rows: seq<Row>, facts: seq<RequestFact>, hash: Digest)
    requires GoodRows(rows) && RequestsDistinct(facts) && ReviseAll(rows, facts).Success?
    ensures (forall f <- facts :: f.requestHash != hash) ==> History(ReviseAll(rows, facts).value, hash) == History(rows, hash)
    ensures forall f <- facts :: f.requestHash == hash ==>
              && History(ReviseAll(rows, facts).value, hash) == Advanced(History(rows, hash), f)
              && (hash in Written(rows, facts) <==> Advances(History(rows, hash), f))
  {
    if facts != [] {
      var n := |facts| - 1;
      var before, fact := facts[..n], facts[n];
      var middle := ReviseAll(rows, before).value;
      assert facts == before + [fact];
      HistoriesAdvance(rows, before, hash);
      ReviseAllGood(rows, before);
      ReviseAdvances(middle, fact, hash);
      ReviseSays(middle, fact);
      forall f | f in before ensures f.requestHash != fact.requestHash {
        var i :| 0 <= i < n && before[i] == f;
        assert facts[i].requestHash != facts[n].requestHash;
      }
      if hash in Written(rows, before) { WrittenRequests(rows, before, hash); }
    }
  }

  lemma {:induction false} WrittenRequests(rows: seq<Row>, facts: seq<RequestFact>, hash: Digest)
    requires ReviseAll(rows, facts).Success? && hash in Written(rows, facts)
    ensures exists f <- facts :: f.requestHash == hash
  {
    var n := |facts| - 1;
    assert facts == facts[..n] + [facts[n]];
    if hash != facts[n].requestHash { WrittenRequests(rows, facts[..n], hash); }
  }

  /** What a successful save leaves: cursor, watermark, histories, attempts and quarantines. */
  ghost predicate SaveSays(db: Database, b: Batch, scanThrough: int, after: Database) {
    && after.cursor == StoredCursor(if b.next == ZERO_CURSOR then b.from else b.next)
    && after.scanned == (if scanThrough > 0 then Some(scanThrough) else None)
    && (forall hash :: (forall f <- b.requests :: f.requestHash != hash) ==> History(after.rows, hash) == History(db.rows, hash))
    && (forall f <- b.requests :: History(after.rows, f.requestHash) == Advanced(History(db.rows, f.requestHash), f))
    && (forall row :: row in after.attempts <==> row in db.attempts || NewAttempt(db, b, row))
    && (forall hash :: hash in after.quarantined <==> hash in db.quarantined || exists q <- b.quarantines :: q.sourceHash == hash)
  }

  /** A cursor with a positive time and a source comes back as it was stored, any other as none. */
  function StoredCursor(c: Cursor): Cursor { if c.at > 0 && c.source != "" then c else Cursor(ZERO_TIME, "") }

  /** An attempt of a request that got a new revision. */
  ghost predicate NewAttempt(db: Database, b: Batch, row: AttemptRow) {
    exists f <- b.requests, a <- b.attempts ::
      && a.requestHash == f.requestHash && row == AttemptRow(f.sourceHash, a.ordinal)
      && Advances(History(db.rows, f.requestHash), f)
  }

  lemma AttemptSaved(db: Database, b: Batch, row: AttemptRow)
    requires GoodDatabase(db) && RequestsDistinct(b.requests) && ReviseAll(db.rows, b.requests).Success?
    ensures row in NewAttempts(Written(db.rows, b.requests), b.requests, b.attempts) <==> NewAttempt(db, b, row)
  {
    forall f | f in b.requests
      ensures f.requestHash in Written(db.rows, b.requests) <==> Advances(History(db.rows, f.requestHash), f)
    {
      HistoriesAdvance(db.rows, b.requests, f.requestHash);
    }
  }

  lemma SaveExactly(db: Database, b: Batch, scanFrom: Option<int>, scanThrough: int)
    requires GoodDatabase(db) && Commit(db, b, scanFrom, scanThrough).Success?
    ensures SaveSays(db, b, scanThrough, Commit(db, b, scanFrom, scanThrough).value)
  {
    var after := Commit(db, b, scanFrom, scanThrough).value;
    forall hash
      ensures (forall f <- b.requests :: f.requestHash != hash) ==> History(after.rows, hash) == History(db.rows, hash)
      ensures forall f <- b.requests :: f.requestHash == hash ==> History(after.rows, hash) == Advanced(History(db.rows, hash), f)
    {
      HistoriesAdvance(db.rows, b.requests, hash);
    }
    forall row ensures row in after.attempts <==> row in db.attempts || NewAttempt(db, b, row) { AttemptSaved(db, b, row); }
  }

  // ---------- when a save is refused ----------

  /** The request at `i` advances, and its key is stored already, repeated, or one revision too many. */
  ghost predicate Refuses(rows: seq<Row>, facts: seq<RequestFact>, i: nat)
    requires i < |facts|
  {
    var h := History(rows, facts[i].requestHash);
    && Advances(h, facts[i])
    && (|h| >= 0x7FFF_FFFF || StoredBefore(rows, facts, i, facts[i].sourceHash))
  }

  /** The key is stored, or comes with an earlier request that advances. */
  ghost predicate StoredBefore(rows: seq<Row>, facts: seq<RequestFact>, i: nat, key: Digest)
    requires i <= |facts|
  {
    || (exists k :: 0 <= k < |rows| && rows[k].key == key)
    || exists j :: 0 <= j < i && facts[j].sourceHash == key && Advances(History(rows, facts[j].requestHash), facts[j])
  }

  ghost predicate NoneRefuses(rows: seq<Row>, facts: seq<RequestFact>) {
    forall i: nat :: i < |facts| ==> !Refuses(rows, facts, i)
  }

  lemma {:induction false} KeysStored(rows: seq<Row>, facts: seq<RequestFact>, key: Digest)
    requires GoodRows(rows) && RequestsDistinct(facts) && ReviseAll(rows, facts).Success?
    ensures HasKey(ReviseAll(rows, facts).value, key) <==> StoredBefore(rows, facts, |facts|, key)
  {
    if facts != [] {
      var n := |facts| - 1;
      var before, fact := facts[..n], facts[n];
      var middle := ReviseAll(rows, before).value;
      KeysStored(rows, before, key);
      ReviseAllGood(rows, before);
      ReviseKeys(middle, fact);
      ReviseSays(middle, fact);
      FreshHistory(rows, facts);
      if HasKey(Revise(middle, fact).value, key) { ReviseNewKeys(middle, fact, key); }
      StoredSnoc(rows, facts, key);
    }
  }

  lemma StoredSnoc(rows: seq<Row>, facts: seq<RequestFact>, key: Digest)
    requires facts != []
    ensures var n := |facts| - 1;
            StoredBefore(rows, facts, |facts|, key) <==>
              StoredBefore(rows, facts[..n], n, key) ||
              (facts[n].sourceHash == key && Advances(History(rows, facts[n].requestHash), facts[n]))
  {
    var n := |facts| - 1;
    forall j | 0 <= j < n ensures facts[..n][j] == facts[j] { }
  }

  /** The last fact finds its history as it was. */
  lemma FreshHistory(rows: seq<Row>, facts: seq<RequestFact>)
    requires GoodRows(rows) && RequestsDistinct(facts) && facts != [] && ReviseAll(rows, facts[..|facts| - 1]).Success?
    ensures var fact := facts[|facts| - 1];
            History(ReviseAll(rows, facts[..|facts| - 1]).value, fact.requestHash) == History(rows, fact.requestHash)
  {
    var n := |facts| - 1;
    forall f | f in facts[..n] ensures f.requestHash != facts[n].requestHash {
      var i :| 0 <= i < n && facts[..n][i] == f;
      assert facts[i].requestHash != facts[n].requestHash;
    }
    HistoriesAdvance(rows, facts[..n], facts[n].requestHash);
  }

  /** Revising goes through exactly when no request refuses. */
  lemma {:induction false} RevisesExactly(rows: seq<Row>, facts: seq<RequestFact>)
    requires GoodRows(rows) && RequestsDistinct(facts)
    ensures ReviseAll(rows, facts).Success? <==> NoneRefuses(rows, facts)
  {
    if facts != [] {
      var n := |facts| - 1;
      var before, fact := facts[..n], facts[n];
      RevisesExactly(rows, before);
      forall i: nat | i < n ensures Refuses(rows, before, i) <==> Refuses(rows, facts, i) {
        StoredPrefix(rows, facts, n, i, facts[i].sourceHash);
      }
      if NoneRefuses(rows, facts) {
        forall i: nat | i < n ensures !Refuses(rows, before, i) { assert !Refuses(rows, facts, i); }
      }
      if ReviseAll(rows, before).Success? {
        ReviseAllGood(rows, before);
        ReviseSays(ReviseAll(rows, before).value, fact);
        FreshHistory(rows, facts);
        KeysStored(rows, before, fact.sourceHash);
        StoredPrefix(rows, facts, n, n, fact.sourceHash);
        assert NoneRefuses(rows, facts) <==> NoneRefuses(rows, before) && !Refuses(rows, facts, n);
      }
    }
  }

  lemma StoredPrefix(rows: seq<Row>, facts: seq<RequestFact>, n: nat, i: nat, key: Digest)
    requires i <= n <= |facts|
    ensures StoredBefore(rows, facts[..n], i, key) <==> StoredBefore(rows, facts, i, key)
  {
    forall j | 0 <= j < i ensures facts[..n][j] == facts[j] { }
  }

  /** A save is accepted exactly for a valid batch that starts where the store stands and none of whose requests refuses. */
  lemma SavesExactly(db: Database, b: Batch, scanFrom: Option<int>, scanThrough: int)
    requires GoodDatabase(db)
    ensures Commit(db, b, scanFrom, scanThrough).Success? <==>
            && ValidBatch(b) && scanThrough != ZERO_TIME && (scanFrom.Some? ==> scanFrom.value <= scanThrough)
            && db.cursor == b.from && db.scanned == scanFrom && NoneRefuses(db.rows, b.requests)
  {
    CompareLaws(db.cursor, b.from);
    if ValidBatch(b) { RevisesExactly(db.rows, b.requests); }
  }

  // ---------- saving the same facts again ----------

  /**
   A revision that was ever stored is never written again: saving it again is skipped, or
   refused. It is refused exactly when another revision has become current that is not newer.
   */
  lemma ResaveOne(rows: seq<Row>, fact: RequestFact)
    requires HasKey(rows, fact.sourceHash)
    ensures Revise(rows, fact).Success? ==> Revise(rows, fact).value == rows
    ensures var k := CurrentIndex(rows, fact.requestHash);
            Revise(rows, fact).Success? <==> k < |rows| && Stale(rows[k], fact)
  {
    var k := CurrentIndex(rows, fact.requestHash);
    if k < |rows| {
      var base := rows[k := rows[k].(current := false)];
      var i :| 0 <= i < |rows| && rows[i].key == fact.sourceHash;
      assert base[i].key == fact.sourceHash;
    }
  }

  lemma {:induction false} ResaveAll(rows: seq<Row>, facts: seq<RequestFact>)
    requires forall i :: 0 <= i < |facts| ==> HasKey(rows, facts[i].sourceHash)
    requires ReviseAll(rows, facts).Success?
    ensures ReviseAll(rows, facts).value == rows && Written(rows, facts) == {}
  {
    if facts != [] {
      ResaveAll(rows, facts[..|facts| - 1]);
      ResaveOne(rows, facts[|facts| - 1]);
    }
  }

  /** After any later saves, saving known facts again writes no request and no attempt. */
  lemma ResaveWritesNothing(db: Database, b: Batch, scanFrom: Option<int>, scanThrough: int)
    requires forall i :: 0 <= i < |b.requests| ==> HasKey(db.rows, b.requests[i].sourceHash)
    requires Commit(db, b, scanFrom, scanThrough).Success?
    ensures var after := Commit(db, b, scanFrom, scanThrough).value;
            after.rows == db.rows && after.attempts == db.attempts
  {
    ResaveAll(db.rows, b.requests);
    assert NewAttempts({}, b.requests, b.attempts) == {};
  }

  /**
   The refusal is real: a request revised from `first` to `second` at the same terminal
   cursor cannot be saved as `first` again, and the whole batch holding it is rolled back.
   */
  lemma RevertedRevisionRefused(first: RequestFact, second: RequestFact)
    requires first.requestHash == second.requestHash && first.terminal == second.terminal
    requires first.sourceHash != second.sourceHash
    ensures ReviseAll([], [first, second]).Success? && ReviseAll([], [first, second, first]).Failure?
  {
    CompareLaws(first.terminal, first.terminal);
    var one := Row(first.requestHash, first.sourceHash, 1, first.terminal, true);
    var retired := one.(current := false);
    var two := Row(first.requestHash, second.sourceHash, 2, second.terminal, true);
    ReviseFresh(first);
    ReviseOnly(one, second);
    assert [retired, two][0].key == first.sourceHash;
    ResaveOne([retired, two], first);
    CurrentSecond(retired, two);
    assert [first, second, first][..2] == [first, second];
    assert [first, second][..1] == [first] && [first][..0] == [];
    assert ReviseAll([], [first]) == Success([one]) by { assert ReviseAll([], []) == Success([]); }
    assert ReviseAll([], [first, second]) == Success([retired, two]);
  }

  lemma ReviseFresh(fact: RequestFact)
    ensures Revise([], fact) == Success([Row(fact.requestHash, fact.sourceHash, 1, fact.terminal, true)])
  {
    var row := Row(fact.requestHash, fact.sourceHash, 1, fact.terminal, true);
    assert CurrentIndex([], fact.requestHash) == 0;
    assert [] + [row] == [row];
  }

  lemma ReviseOnly(row: Row, fact: RequestFact)
    requires row.current && row.hash == fact.requestHash && row.key != fact.sourceHash && row.revision == 1
    requires CursorLe(row.terminal, fact.terminal)
    ensures Revise([row], fact) ==
            Success([row.(current := false), Row(fact.requestHash, fact.sourceHash, 2, fact.terminal, true)])
  {
    CompareLaws(row.terminal, fact.terminal);
    var retired := row.(current := false);
    assert CurrentIndex([row], fact.requestHash) == 0;
    assert [row][0 := retired] == [retired];
    var row2 := Row(fact.requestHash, fact.sourceHash, 2, fact.terminal, true);
    assert [retired] + [row2] == [retired, row2];
    assert !Stale(row, fact);
    assert !HasKey([retired], fact.sourceHash);
  }

  lemma CurrentSecond(a: Row, b: Row)
    requires !a.current && b.current
    ensures CurrentIndex([a, b], b.hash) == 1
  {
    assert [a, b][1..] == [b];
  }

  // ---------- the transaction ----------

  /** One request: skip it, or supersede the current revision and insert the next one. */
  method PrepareRevision(rows: seq<Row>, fact: RequestFact) returns (r: Result<seq<Row>, SaveError>, wrote: bool)
    ensures r == Revise(rows, fact)
    ensures r.Success? ==> wrote == Writes(rows, fact)
  {
    wrote := false;
    var k, revision := CurrentIndex(rows, fact.requestHash), 1;
    var table := rows;
    if k < |rows| {
      if Stale(rows[k], fact) { return Success(rows), false; }
      if rows[k].revision >= MAX_REVISION { return Failure(RevisionLimit), false; }
      revision := rows[k].revision + 1;
      table := table[k := rows[k].(current := false)];
    }
    if HasKey(table, fact.sourceHash) { return Failure(KeyExists), false; }
    return Success(table + [Row(fact.requestHash, fact.sourceHash, revision, fact.terminal, true)]), true;
  }

  class Store {
    var cursor: Cursor
    var scanned: Option<int>
    var rows: seq<Row>
    var attempts: set<AttemptRow>
    var quarantined: set<Digest>

    ghost function State(): Database
      reads this
    {
      Database(cursor, scanned, rows, attempts, quarantined)
    }

    constructor ()
      ensures State() == Database(ZERO_CURSOR, None, [], {}, {})
    {
      cursor, scanned, rows, attempts, quarantined := ZERO_CURSOR, None, [], {}, {};
    }

    /** Supersedes and inserts in a private copy of the rows. */
    method ReviseRequests(facts: seq<RequestFact>) returns (r: Result<(seq<Row>, set<Digest>), SaveError>)
      ensures match ReviseAll(rows, facts)
              case Failure(e) => r == Failure(e)
              case Success(after) => r == Success((after, Written(rows, facts)))
    {
      var table, written, i := rows, {}, 0;
      while i < |facts|
        invariant i <= |facts|
        invariant ReviseAll(rows, facts[..i]) == Success(table)
        invariant written == Written(rows, facts[..i])
      {
        assert facts[..i + 1][..i] == facts[..i];
        var next, wrote := PrepareRevision(table, facts[i]);
        if next.Failure? {
          RefusedPrefix(rows, facts, i + 1);
          return Failure(next.error);
        }
        table := next.value;
        if wrote { written := written + {facts[i].requestHash}; }
        i := i + 1;
      }
      assert facts[..|facts|] == facts;
      r := Success((table, written));
    }

    /** Everything or nothing: a refusal leaves the store as it was. */
    method Save(b: Batch, scanFrom: Option<int>, scanThrough: int) returns (r: Result<(), SaveError>)
      modifies this
      ensures match Commit(old(State()), b, scanFrom, scanThrough)
              case Failure(e) => r == Failure(e) && State() == old(State())
              case Success(after) => r == Success(()) && State() == after
      ensures old(GoodDatabase(State())) ==>
                && (r.Success? <==>
                      && ValidBatch(b) && scanThrough != ZERO_TIME && (scanFrom.Some? ==> scanFrom.value <= scanThrough)
                      && old(cursor) == b.from && old(scanned) == scanFrom && NoneRefuses(old(rows), b.requests))
                && (r.Success? ==> SaveSays(old(State()), b, scanThrough, State()))
    {
      ghost var db := State();
      if GoodDatabase(db) {
        SavesExactly(db, b, scanFrom, scanThrough);
        if Commit(db, b, scanFrom, scanThrough).Success? { SaveExactly(db, b, scanFrom, scanThrough); }
      }
      var ok := Converter.Validate(b);
      if !ok { return Failure(InvalidBatch); }
      if scanThrough == ZERO_TIME || (scanFrom.Some? && scanThrough < scanFrom.value) { return Failure(InvalidWindow); }
      if cursor.Compare(b.from) != 0 || scanned != scanFrom { return Failure(CursorConflict); }
      var revised := ReviseRequests(b.requests);
      if revised.Failure? { return Failure(revised.error); }
      attempts := attempts + NewAttempts(revised.value.1, b.requests, b.attempts);
      quarantined := quarantined + (set q | q in b.quarantines :: q.sourceHash);
      rows := revised.value.0;
      cursor := ReadBack(if b.next.IsZero() then b.from else b.next);
      scanned := ReadBackTime(scanThrough);
      r := Success(());
    }
  }

  lemma {:induction false} RefusedPrefix(rows: seq<Row>, facts: seq<RequestFact>, n: nat)
    requires n <= |facts| && ReviseAll(rows, facts[..n]).Failure?
    ensures ReviseAll(rows, facts) == ReviseAll(rows, facts[..n])
    decreases |facts|
  {
    if n < |facts| {
      assert facts[..|facts| - 1][..n] == facts[..n];
      RefusedPrefix(rows, facts[..|facts| - 1], n);
    } else {
      assert facts[..n] == facts;
    }
  }
}
