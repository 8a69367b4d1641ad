/** From the log records of one request to its request fact and attempt facts. */
module Conversion {
  import opened Wrappers
  import opened Sequences
  import opened Text
  import opened Cursors
  import opened Measurement
  import opened ErrorClasses
  import opened LogHash

  /** Everything a conversion reads besides the records. */
  datatype Context = Context(source: Source, site: Uuid, codes: CodeTable, resolve: (int, int) -> Attribution)

  function InvalidReason(r: LogInput): Reason {
    if !ValidRequestId(r.requestId) then InvalidRequestId
    else if r.result != Succeeded && r.result != Failed then InvalidResult
    else if !ValidModel(r.model, r.group) then InvalidModelOrGroup
    else if r.channel < 0 || (r.result == Succeeded && r.channel == 0) then InvalidChannel
    else if exists i :: 0 <= i < |r.usedChannels| && r.usedChannels[i] < 1 then InvalidChannelSequence
    else if !ValidStatus(r.http) then InvalidHttpStatus
    else if !ValidTokens(r.prompt, r.completion) then InvalidTokenUsage
    else if !ValidDurations(r.firstToken, r.total) then InvalidDuration
    else NoReason
  }

  predicate ValidRecord(r: LogInput) { InvalidReason(r) == NoReason }

  predicate InvalidRecord(r: LogInput) { !ValidRecord(r) }

  function Log(ctx: Context, r: LogInput): Digest { LogDigest(ctx.source, ctx.site, Identity(r)) }

  function Quarantine(ctx: Context, cursor: Cursor, reason: Reason): QuarantineFact {
    QuarantineFact(QuarantineDigest(ctx.source, ctx.site, cursor), ctx.source, ctx.site, cursor, reason)
  }

  function AttributionFor(channel: int, at: int, resolve: (int, int) -> Attribution): Attribution {
    if channel < 1 || at == ZERO_TIME then Pending
    else
      var a := resolve(channel, at);
      if a.Pending? || a.relation == NIL || a.supplier == NIL then Pending else a
  }

  // ---------- the channel sequence ----------

  /** The longest reported channel list; the later one when lengths tie. */
  function ReportedChannels(records: seq<LogInput>): seq<int> {
    if records == [] then []
    else
      var before := ReportedChannels(records[..|records| - 1]);
      var used := records[|records| - 1].usedChannels;
      if |used| >= |before| then used else before
  }

  function Channels(records: seq<LogInput>): (s: seq<int>)
    requires records != []
    ensures s != [] && s[|s| - 1] == records[|records| - 1].channel
  {
    var s := ReportedChannels(records);
    var last := records[|records| - 1].channel;
    if s == [] || s[|s| - 1] != last then s + [last] else s
  }

  // ---------- the terminal record ----------

  predicate CutShort(r: LogInput) {
    r.result == Succeeded && StreamOf(r.isStream, r.streamCompleted) == StreamIncomplete
  }

  /** The last record, with the evidence of a cut stream written into it. */
  function Terminal(records: seq<LogInput>): LogInput
    requires records != []
  {
    var t := records[|records| - 1];
    if CutShort(t) then t.(code := "stream_incomplete", text := CUT_TEXT) else t
  }

  predicate Fails(records: seq<LogInput>)
    requires records != []
  {
    CutShort(records[|records| - 1]) || records[|records| - 1].result == Failed
  }

  // ---------- which failure record explains which earlier attempt ----------

  predicate IsFailure(r: LogInput) { r.result == Failed }

  function Failures(records: seq<LogInput>): seq<LogInput>
    requires records != []
  {
    Filter(IsFailure, records[..|records| - 1])
  }

  /** Index of the first unused failure on `channel`, or the number of failures. */
  function FirstUnused(failures: seq<LogInput>, used: set<nat>, channel: int, k: nat): (r: nat)
    requires k <= |failures|
    ensures k <= r <= |failures|
    ensures r < |failures| ==> r !in used && failures[r].channel == channel
    ensures forall i :: k <= i < r ==> i in used || failures[i].channel != channel
    decreases |failures| - k
  {
    if k == |failures| || (k !in used && failures[k].channel == channel) then k
    else FirstUnused(failures, used, channel, k + 1)
  }

  /** The failures consumed by the first `n` channels. */
  function Used(failures: seq<LogInput>, channels: seq<int>, n: nat): (used: set<nat>)
    requires n <= |channels|
    ensures forall i <- used :: i < |failures|
  {
    if n == 0 then {}
    else
      var before := Used(failures, channels, n - 1);
      var k := FirstUnused(failures, before, channels[n - 1], 0);
      if k < |failures| then before + {k} else before
  }

  /** Which failure explains the attempt on the channel at `i`; their number when none does. */
  function Explains(failures: seq<LogInput>, channels: seq<int>, i: nat): (k: nat)
    requires i < |channels|
    ensures k <= |failures|
  {
    FirstUnused(failures, Used(failures, channels, i), channels[i], 0)
  }

  /** The failure record that explains the attempt at `i`, if any. */
  function Explanation(records: seq<LogInput>, i: nat): (r: Option<LogInput>)
    requires records != [] && i < |Channels(records)|
    ensures r.Some? ==> r.value in Failures(records) && r.value.channel == Channels(records)[i]
  {
    var failures := Failures(records);
    var k := Explains(failures, Channels(records), i);
    if k < |failures| then Some(failures[k]) else None
  }

  /** The used failures are those that explain an earlier attempt. */
  lemma {:induction false} UsedExactly(failures: seq<LogInput>, channels: seq<int>, n: nat, k: nat)
    requires n <= |channels| && k < |failures|
    ensures k in Used(failures, channels, n) <==> exists i :: 0 <= i < n && Explains(failures, channels, i) == k
  {
    if n > 0 {
      UsedExactly(failures, channels, n - 1, k);
      assert k in Used(failures, channels, n) <==>
             k in Used(failures, channels, n - 1) || Explains(failures, channels, n - 1) == k;
    }
  }

  /**
   Every failure explains at most one attempt, one on its own channel, and an attempt stays
   unexplained only when every failure on its channel explains an earlier attempt.
   */
  lemma FailuresExplainOnce(failures: seq<LogInput>, channels: seq<int>, i: nat, k: nat)
    requires i < |channels| && k < |failures|
    ensures Explains(failures, channels, i) == k ==>
              failures[k].channel == channels[i] && forall j :: 0 <= j < i ==> Explains(failures, channels, j) != k
    ensures Explains(failures, channels, i) == |failures| && failures[k].channel == channels[i] ==>
              exists j :: 0 <= j < i && Explains(failures, channels, j) == k
  {
    UsedExactly(failures, channels, i, k);
  }

  // ---------- the facts ----------

  /** The record an attempt is measured by: the terminal one for the last, otherwise its explanation. */
  function Evidence(records: seq<LogInput>, i: nat): Option<LogInput>
    requires records != [] && i < |Channels(records)|
  {
    if i == |Channels(records)| - 1 then Some(Terminal(records)) else Explanation(records, i)
  }

  /** An attempt measured by its own record. */
  function Measured(ctx: Context, id: string, ordinal: nat, channel: int, r: LogInput, last: bool, failed: bool): AttemptFact {
    var error := if failed then ClassifyRecord(ctx.codes, r) else NoError;
    AttemptFact(
      AttemptDigest(Log(ctx, r), ordinal, channel), RequestDigest(ctx.source, ctx.site, id), ctx.source, ctx.site, id,
      ordinal, channel, r.model, AttributionFor(channel, r.cursor.at, ctx.resolve),
      if failed then ResultOf(error.kind) else Succeeded, r.http, last, r.isStream, r.firstToken.Some?,
      StreamOf(r.isStream, r.streamCompleted), r.firstToken, r.total, r.resolution, r.cursor.at, error)
  }

  /** An earlier attempt no record explains. */
  function Assumed(ctx: Context, id: string, ordinal: nat, channel: int, terminal: LogInput, base: LogInput): AttemptFact {
    AttemptFact(
      AttemptDigest(Log(ctx, base), ordinal, channel), RequestDigest(ctx.source, ctx.site, id), ctx.source, ctx.site, id,
      ordinal, channel, terminal.model, Pending, Failed, 0, false, false, false, StreamUnknown, None, None, 0,
      terminal.cursor.at, ErrorFact(UnknownError, "", ASSUMED_TEXT))
  }

  function Attempt(ctx: Context, records: seq<LogInput>, i: nat): AttemptFact
    requires records != [] && i < |Channels(records)|
  {
    var channel, last := Channels(records)[i], i == |Channels(records)| - 1;
    var t := Terminal(records);
    var evidence := Evidence(records, i);
    if evidence.None? then
      Assumed(ctx, t.requestId, i + 1, channel, t, records[|records| - 1])
    else
      Measured(ctx, t.requestId, i + 1, channel, evidence.value, last, !last || Fails(records))
  }

  function Attempts(ctx: Context, records: seq<LogInput>, n: nat): (s: seq<AttemptFact>)
    requires records != [] && n <= |Channels(records)|
    ensures |s| == n
  {
    seq(n, i requires 0 <= i < n => Attempt(ctx, records, i))
  }

  function AllAttempts(ctx: Context, records: seq<LogInput>): seq<AttemptFact>
    requires records != []
  {
    Attempts(ctx, records, |Channels(records)|)
  }

  function AttemptHash(a: AttemptFact): Digest { a.sourceHash }

  /** The request fact of a terminal record. */
  function Concluded(ctx: Context, hash: Digest, t: LogInput, failed: bool, attempts: nat, at: int): RequestFact {
    var error := if failed then ClassifyRecord(ctx.codes, t) else NoError;
    RequestFact(
      hash, RequestDigest(ctx.source, ctx.site, t.requestId), ctx.source, ctx.site, t.requestId, t.cursor, t.model, t.group,
      if failed then ResultOf(error.kind) else Succeeded, t.http, t.isStream, StreamOf(t.isStream, t.streamCompleted), t.channel,
      AttributionFor(t.channel, t.cursor.at, ctx.resolve), t.firstToken, t.total, t.resolution,
      t.prompt, t.completion, t.prompt + t.completion, attempts, at, error)
  }

  function Request(ctx: Context, records: seq<LogInput>): RequestFact
    requires records != []
  {
    Concluded(
      ctx, RevisionDigest(Log(ctx, records[|records| - 1]), Map(AttemptHash, AllAttempts(ctx, records))),
      Terminal(records), Fails(records), |Channels(records)|, records[0].cursor.at)
  }

  /** The key of a revision lists one hash for every attempt. */
  predicate Keyed(r: RequestFact) { r.sourceHash.RevisionDigest? && |r.sourceHash.attempts| == r.attemptCount }

  lemma RequestKeyed(ctx: Context, records: seq<LogInput>)
    requires records != []
    ensures Keyed(Request(ctx, records))
  {
    assert |Map(AttemptHash, AllAttempts(ctx, records))| == |Channels(records)|;
  }

  // ---------- when the facts of one request are storable ----------

  /** A group as the grouping loop leaves it: sorted valid records of one request. */
  ghost predicate IsGroup(records: seq<LogInput>, id: string) {
    && records != []
    && (forall r <- records :: ValidRecord(r) && r.requestId == id && r.cursor.Valid())
    && forall i, j :: 0 <= i < j < |records| ==> CursorLe(records[i].cursor, records[j].cursor)
  }

  /** The evidence can be stored: its resolution fits its duration, and a failure's summary is storable. */
  predicate Storable(r: LogInput, failed: bool) {
    ValidResolution(r.total, r.resolution) && (failed ==> SummaryOf(r.text).storable)
  }

  predicate GroupStorable(records: seq<LogInput>)
    requires records != []
  {
    && Storable(Terminal(records), Fails(records))
    && forall i :: 0 <= i < |Channels(records)| - 1 && Explanation(records, i).Some? ==>
         Storable(Explanation(records, i).value, true)
  }

  lemma {:induction false} ReportedChannelsValid(records: seq<LogInput>)
    requires forall r <- records :: ValidRecord(r)
    ensures forall i :: 0 <= i < |ReportedChannels(records)| ==> ReportedChannels(records)[i] >= 1
  {
    if records != [] {
      ReportedChannelsValid(records[..|records| - 1]);
      assert records[|records| - 1] in records;
    }
  }

  lemma ContainsPrefix(a: string, b: string)
    ensures ContainsAny(a, "\0\r\n") ==> ContainsAny(a + b, "\0\r\n")
  {
    if ContainsAny(a, "\0\r\n") {
      var i :| 0 <= i < |a| && a[i] in "\0\r\n";
      assert (a + b)[i] == a[i];
    }
  }

  lemma TerminalValid(records: seq<LogInput>, id: string)
    requires IsGroup(records, id)
    ensures ValidRecord(Terminal(records)) && Terminal(records).requestId == id && Terminal(records).cursor.Valid()
    ensures Fails(records) || Terminal(records) == records[|records| - 1]
    ensures records[0].cursor.at <= Terminal(records).cursor.at && records[0].cursor.Valid()
  {
    var t := records[|records| - 1];
    assert t in records && records[0] in records;
  }

  lemma ExplanationValid(records: seq<LogInput>, id: string, i: nat)
    requires IsGroup(records, id) && i < |Channels(records)| && Explanation(records, i).Some?
    ensures ValidRecord(Explanation(records, i).value)
    ensures Explanation(records, i).value.requestId == id && Explanation(records, i).value.cursor.Valid()
  {
    FilterMembers(IsFailure, records[..|records| - 1]);
    assert Explanation(records, i).value in records;
  }

  /** The source hash of an attempt quotes a record of the attempt's own request. */
  predicate QuotesRequest(a: AttemptFact, id: string) {
    && a.sourceHash.AttemptDigest? && a.sourceHash.ordinal == a.ordinal
    && a.sourceHash.base.LogDigest? && a.sourceHash.base.record.requestId == id
  }

  predicate Identified(ctx: Context, a: AttemptFact, id: string, i: nat) {
    && a.source == ctx.source && a.site == ctx.site && a.requestId == id && a.ordinal == i + 1
    && a.requestHash == RequestDigest(ctx.source, ctx.site, id)
    && QuotesRequest(a, id)
  }

  lemma AttemptIdentified(ctx: Context, id: string, records: seq<LogInput>, i: nat)
    requires IsGroup(records, id) && i < |Channels(records)|
    ensures Identified(ctx, Attempt(ctx, records, i), id, i)
    ensures i == |Channels(records)| - 1 ==> Agrees(Attempt(ctx, records, i), Request(ctx, records))
    ensures i < |Channels(records)| - 1 ==> !Attempt(ctx, records, i).isFinal
  {
    TerminalValid(records, id);
    assert records[|records| - 1] in records;
    if i < |Channels(records)| - 1 && Explanation(records, i).Some? { ExplanationValid(records, id, i); }
  }

  lemma UnexplainedAttemptValid(ctx: Context, id: string, records: seq<LogInput>, i: nat)
    requires IsGroup(records, id) && i < |Channels(records)| && ctx.source != DirectProbe && ctx.site != NIL
    requires Evidence(records, i).None?
    ensures ValidAttempt(Attempt(ctx, records, i))
  {
    TerminalValid(records, id);
    ChannelsValid(records, id);
    ContainsPrefix(Terminal(records).model, Terminal(records).group);
  }

  lemma EvidenceValid(records: seq<LogInput>, id: string, i: nat)
    requires IsGroup(records, id) && i < |Channels(records)| && Evidence(records, i).Some?
    ensures ValidRecord(Evidence(records, i).value) && Evidence(records, i).value.requestId == id
    ensures Evidence(records, i).value.cursor.Valid()
    ensures !ContainsAny(Evidence(records, i).value.model, "\0\r\n")
  {
    TerminalValid(records, id);
    if i < |Channels(records)| - 1 { ExplanationValid(records, id, i); }
    ContainsPrefix(Evidence(records, i).value.model, Evidence(records, i).value.group);
  }

  lemma MeasuredValid(ctx: Context, id: string, ordinal: nat, channel: int, r: LogInput, last: bool, failed: bool)
    requires ValidRecord(r) && r.cursor.Valid() && r.requestId == id && !ContainsAny(r.model, "\0\r\n")
    requires ctx.source != DirectProbe && ctx.site != NIL && ordinal >= 1 && channel >= 0
    ensures ValidAttempt(Measured(ctx, id, ordinal, channel, r, last, failed)) <==>
            Storable(r, failed)
  {
    ClassifiedErrorValid(ctx.codes, r);
  }

  lemma ExplainedAttemptValid(ctx: Context, id: string, records: seq<LogInput>, i: nat)
    requires IsGroup(records, id) && i < |Channels(records)| && ctx.source != DirectProbe && ctx.site != NIL
    requires Evidence(records, i).Some?
    ensures ValidAttempt(Attempt(ctx, records, i)) <==>
            Storable(Evidence(records, i).value, i < |Channels(records)| - 1 || Fails(records))
  {
    TerminalValid(records, id);
    ChannelsValid(records, id);
    EvidenceValid(records, id, i);
    var last := i == |Channels(records)| - 1;
    MeasuredValid(ctx, id, i + 1, Channels(records)[i], Evidence(records, i).value, last, !last || Fails(records));
  }

  lemma ChannelsValid(records: seq<LogInput>, id: string)
    requires IsGroup(records, id)
    ensures forall i :: 0 <= i < |Channels(records)| ==> Channels(records)[i] >= 0
  {
    ReportedChannelsValid(records);
    assert records[|records| - 1] in records;
  }

  lemma ConcludedValid(ctx: Context, hash: Digest, t: LogInput, failed: bool, attempts: nat, at: int)
    requires ValidRecord(t) && t.cursor.Valid() && at <= t.cursor.at && at != ZERO_TIME && attempts >= 1
    requires ctx.source != DirectProbe && ctx.site != NIL
    ensures ValidRequest(Concluded(ctx, hash, t, failed, attempts, at)) <==>
            Storable(t, failed)
  {
    ClassifiedErrorValid(ctx.codes, t);
  }

  lemma RequestValid(ctx: Context, id: string, records: seq<LogInput>)
    requires IsGroup(records, id) && ctx.source != DirectProbe && ctx.site != NIL
    ensures ValidRequest(Request(ctx, records)) <==>
            Storable(Terminal(records), Fails(records))
  {
    TerminalValid(records, id);
    var r := Request(ctx, records);
    ConcludedValid(ctx, r.sourceHash, Terminal(records), Fails(records), |Channels(records)|, records[0].cursor.at);
  }

  lemma GroupComplete(ctx: Context, id: string, records: seq<LogInput>)
    requires IsGroup(records, id)
    ensures Complete(Request(ctx, records), AllAttempts(ctx, records))
    ensures Request(ctx, records).requestHash == RequestDigest(ctx.source, ctx.site, id)
    ensures Request(ctx, records).requestId == id
  {
    var r, s, n := Request(ctx, records), AllAttempts(ctx, records), |Channels(records)|;
    TerminalValid(records, id);
    forall i | 0 <= i < n ensures Identified(ctx, s[i], id, i) && Agrees(s[i], r) {
      AttemptIdentified(ctx, id, records, i);
    }
    forall k: nat ensures k in Ordinals(s, r.requestHash) <==> 1 <= k <= n {
      if 1 <= k <= n { assert s[k - 1].ordinal == k; }
    }
  }

  /** The facts of one request are storable exactly when the evidence they quote is. */
  lemma GroupValid(ctx: Context, id: string, records: seq<LogInput>)
    requires IsGroup(records, id) && ctx.source != DirectProbe && ctx.site != NIL
    ensures (ValidRequest(Request(ctx, records)) &&
             forall a <- AllAttempts(ctx, records) :: ValidAttempt(a))
            <==> GroupStorable(records)
  {
    var s, n := AllAttempts(ctx, records), |Channels(records)|;
    RequestValid(ctx, id, records);
    forall i | 0 <= i < n
      ensures ValidAttempt(s[i]) <==>
              (Evidence(records, i).Some? ==> Storable(Evidence(records, i).value, i < n - 1 || Fails(records)))
    {
      if Evidence(records, i).Some? {
        ExplainedAttemptValid(ctx, id, records, i);
      } else {
        UnexplainedAttemptValid(ctx, id, records, i);
      }
    }
    if forall a <- s :: ValidAttempt(a) {
      forall i | 0 <= i < n - 1 && Explanation(records, i).Some?
        ensures Storable(Explanation(records, i).value, true)
      {
        assert s[i] in s;
      }
    }
  }
}
