/**
 What the facts of one request say about its log records, field by field: which channels were
 tried, which record explains which try, and how the request and each try ended.
 */
module RequestFacts {
  import opened Wrappers
  import opened Sequences
  import opened Text
  import opened Cursors
  import opened Measurement
  import opened ErrorClasses
  import opened LogHash
  import opened Conversion

  // ---------- which records are set aside ----------

  predicate IdentifierFits(r: LogInput) {
    && (exists i :: 0 <= i < |r.requestId| && !IsSpace(r.requestId[i])) && |r.requestId| <= 128
    && forall i :: 0 <= i < |r.requestId| ==> r.requestId[i] !in "\0\r\n"
  }

  predicate NamesFit(r: LogInput) {
    && (exists i :: 0 <= i < |r.model| && !IsSpace(r.model[i])) && |r.model| <= 191 && |r.group| <= 64
    && (forall i :: 0 <= i < |r.model| ==> r.model[i] !in "\0\r\n")
    && forall i :: 0 <= i < |r.group| ==> r.group[i] !in "\0\r\n"
  }

  predicate ChannelFits(r: LogInput) { r.channel >= 1 || (r.channel == 0 && r.result == Failed) }

  predicate DurationsFit(r: LogInput) {
    match (r.firstToken, r.total)
    case (Some(f), Some(t)) => 0 <= f <= t
    case (Some(f), None) => 0 <= f
    case (None, Some(t)) => 0 <= t
    case (None, None) => true
  }

  /** The faults a record can have, in the order in which they are looked for. */
  function Faults(r: LogInput): seq<(bool, Reason)> {
    [ (!IdentifierFits(r), InvalidRequestId),
      (r.result != Succeeded && r.result != Failed, InvalidResult),
      (!NamesFit(r), InvalidModelOrGroup),
      (!ChannelFits(r), InvalidChannel),
      (exists c <- r.usedChannels :: c < 1, InvalidChannelSequence),
      (r.http != 0 && (r.http < 100 || r.http > 599), InvalidHttpStatus),
      (r.prompt < 0 || r.completion < 0 || r.prompt + r.completion > 0x7FFF_FFFF_FFFF_FFFF, InvalidTokenUsage),
      (!DurationsFit(r), InvalidDuration) ]
  }

  /** A record is set aside for its first fault, and converted when it has none. */
  lemma ReasonExactly(r: LogInput)
    ensures InvalidReason(r) == NoReason <==> forall k :: 0 <= k < 8 ==> !Faults(r)[k].0
    ensures forall k :: 0 <= k < 8 && Faults(r)[k].0 && (forall j :: 0 <= j < k ==> !Faults(r)[j].0) ==>
              InvalidReason(r) == Faults(r)[k].1
  {
    IdentifierExactly(r);
    NamesExactly(r);
    forall i | 0 <= i < |r.usedChannels| ensures r.usedChannels[i] in r.usedChannels { }
    var f := Faults(r);
    assert f[0].0 == !ValidRequestId(r.requestId) && f[2].0 == !ValidModel(r.model, r.group);
    assert f[4].0 == exists i :: 0 <= i < |r.usedChannels| && r.usedChannels[i] < 1;
    assert f[5].0 == !ValidStatus(r.http) && f[6].0 == !ValidTokens(r.prompt, r.completion);
    assert f[7].0 == !ValidDurations(r.firstToken, r.total);
    assert f[1].0 == (r.result != Succeeded && r.result != Failed) && f[3].0 == !ChannelFits(r);
    if forall k :: 0 <= k < 8 ==> !f[k].0 {
      assert !f[0].0 && !f[1].0 && !f[2].0 && !f[3].0 && !f[4].0 && !f[5].0 && !f[6].0 && !f[7].0;
    }
    forall k | 0 <= k < 8 && f[k].0 && (forall j :: 0 <= j < k ==> !f[j].0) ensures InvalidReason(r) == f[k].1 {
      FirstFault(r, k);
    }
  }

  lemma FirstFault(r: LogInput, k: int)
    requires 0 <= k < 8 && Faults(r)[k].0 && forall j :: 0 <= j < k ==> !Faults(r)[j].0
    ensures InvalidReason(r) == Faults(r)[k].1
  {
    var f := Faults(r);
    IdentifierExactly(r);
    NamesExactly(r);
    forall i | 0 <= i < |r.usedChannels| ensures r.usedChannels[i] in r.usedChannels { }
    if k > 0 { assert !f[0].0; }
    if k > 1 { assert !f[1].0; }
    if k > 2 { assert !f[2].0; }
    if k > 3 { assert !f[3].0; }
    if k > 4 { assert !f[4].0; }
    if k > 5 { assert !f[5].0; }
    if k > 6 { assert !f[6].0; }
  }

  lemma IdentifierExactly(r: LogInput)
    ensures IdentifierFits(r) <==> ValidRequestId(r.requestId)
  {
  }

  lemma NamesExactly(r: LogInput)
    ensures NamesFit(r) <==> ValidModel(r.model, r.group)
  {
    var s := r.model + r.group;
    if !ContainsAny(s, "\0\r\n") {
      forall i | 0 <= i < |r.model| ensures r.model[i] !in "\0\r\n" { assert s[i] == r.model[i]; }
      forall i | 0 <= i < |r.group| ensures r.group[i] !in "\0\r\n" { assert s[|r.model| + i] == r.group[i]; }
    }
    if NamesFit(r) {
      forall i | 0 <= i < |s| ensures s[i] !in "\0\r\n" {
        if i < |r.model| { assert s[i] == r.model[i]; } else { assert s[i] == r.group[i - |r.model|]; }
      }
    }
  }

  // ---------- the channels tried ----------

  /** No list is longer than the one of record `i`, and every later one is shorter. */
  predicate LongestAt(records: seq<LogInput>, i: nat) {
    && i < |records|
    && (forall j :: 0 <= j < i ==> |records[j].usedChannels| <= |records[i].usedChannels|)
    && forall j :: i < j < |records| ==> |records[j].usedChannels| < |records[i].usedChannels|
  }

  /** The longest list, followed by the channel of the last record where it does not end in it. */
  predicate Follows(used: seq<int>, last: int, tried: seq<int>) {
    if used != [] && used[|used| - 1] == last then tried == used else tried == used + [last]
  }

  ghost predicate Tried(records: seq<LogInput>, tried: seq<int>)
    requires records != []
  {
    exists i: nat :: TriedFrom(records, i, tried)
  }

  predicate TriedFrom(records: seq<LogInput>, i: nat, tried: seq<int>)
    requires records != []
  {
    LongestAt(records, i) && Follows(records[i].usedChannels, records[|records| - 1].channel, tried)
  }

  lemma {:induction false} ReportedLongest(records: seq<LogInput>) returns (i: nat)
    requires records != []
    ensures LongestAt(records, i) && ReportedChannels(records) == records[i].usedChannels
  {
    var n := |records| - 1;
    i := n;
    if n > 0 {
      var k := ReportedLongest(records[..n]);
      if |records[n].usedChannels| < |records[k].usedChannels| { i := k; }
    } else {
      assert records[..n] == [];
    }
  }

  lemma ChannelsTried(records: seq<LogInput>)
    requires records != []
    ensures Tried(records, Channels(records))
  {
    var i := ReportedLongest(records);
    assert TriedFrom(records, i, Channels(records));
  }

  lemma LongestOnce(records: seq<LogInput>, i: nat, j: nat)
    requires LongestAt(records, i) && LongestAt(records, j)
    ensures i == j
  {
    var a, b := |records[i].usedChannels|, |records[j].usedChannels|;
  }

  /** The position is unique, so the tried channels are too. */
  lemma TriedOnce(records: seq<LogInput>, a: seq<int>, b: seq<int>)
    requires records != [] && Tried(records, a) && Tried(records, b)
    ensures a == b
  {
    var i: nat :| TriedFrom(records, i, a);
    var j: nat :| TriedFrom(records, j, b);
    LongestOnce(records, i, j);
  }

  // ---------- the k-th try of a channel is explained by its k-th failure ----------

  function Is(channel: int): int -> bool { (c: int) => c == channel }

  function On(channel: int): LogInput -> bool { (r: LogInput) => r.channel == channel }

  function FailedOn(channel: int): LogInput -> bool { (r: LogInput) => r.result == Failed && r.channel == channel }

  /** How many elements before `k` satisfy the predicate. */
  function Before<T>(p: T -> bool, s: seq<T>, k: nat): nat
    requires k <= |s|
  {
    |Filter(p, s[..k])|
  }

  lemma BeforeNext<T>(p: T -> bool, s: seq<T>, k: nat)
    requires k < |s|
    ensures Before(p, s, k + 1) == Before(p, s, k) + if p(s[k]) then 1 else 0
  {
    assert s[..k + 1] == s[..k] + [s[k]];
    FilterSnoc(p, s[..k], s[k]);
  }

  /** An element that is kept stands where the count before it says. */
  lemma {:induction false} KeptAt<T>(p: T -> bool, s: seq<T>, k: nat)
    requires k < |s| && p(s[k])
    ensures Before(p, s, k) < |Filter(p, s)| && Filter(p, s)[Before(p, s, k)] == s[k]
    decreases |s|
  {
    var n := |s| - 1;
    if k < n {
      KeptAt(p, s[..n], k);
      assert s[..n][..k] == s[..k];
    } else {
      assert s[..k] == s[..n];
    }
  }

  /** The first `n` kept elements are all that stand before where the count reaches `n`. */
  lemma {:induction false} KeptFrom<T>(p: T -> bool, s: seq<T>, n: nat) returns (k: nat)
    requires n < |Filter(p, s)|
    ensures k < |s| && p(s[k]) && Before(p, s, k) == n
  {
    var m := |s| - 1;
    if n < |Filter(p, s[..m])| {
      k := KeptFrom(p, s[..m], n);
      assert s[..m][..k] == s[..k];
    } else {
      k := m;
    }
  }

  lemma {:induction false} BeforeGrows<T>(p: T -> bool, s: seq<T>, j: nat, k: nat)
    requires j <= k <= |s|
    ensures Before(p, s, j) <= Before(p, s, k)
    ensures j < k && p(s[j]) ==> Before(p, s, j) < Before(p, s, k)
    decreases k - j
  {
    if j < k {
      BeforeNext(p, s, j);
      BeforeGrows(p, s, j + 1, k);
    }
  }

  /** The failures used up on a channel are as many of the first ones as there were tries. */
  lemma {:induction false} UsedInOrder(failures: seq<LogInput>, channels: seq<int>, i: nat, k: nat)
    requires i <= |channels| && k < |failures|
    ensures k in Used(failures, channels, i) <==>
            Before(On(failures[k].channel), failures, k) < Before(Is(failures[k].channel), channels, i)
    decreases i, 0
  {
    if i == 0 {
      assert channels[..0] == [];
    } else {
      var c := failures[k].channel;
      UsedInOrder(failures, channels, i - 1, k);
      BeforeNext(Is(c), channels, i - 1);
      if channels[i - 1] == c { NextUsed(failures, channels, i - 1, k); }
    }
  }

  /** A try takes the failure whose number is that of the try. */
  lemma {:induction false} NextUsed(failures: seq<LogInput>, channels: seq<int>, i: nat, k: nat)
    requires i < |channels| && k < |failures| && failures[k].channel == channels[i]
    ensures Explains(failures, channels, i) == k <==>
            Before(On(channels[i]), failures, k) == Before(Is(channels[i]), channels, i)
    decreases i, 1
  {
    var c := channels[i];
    var e := Explains(failures, channels, i);
    var tries := Before(Is(c), channels, i);
    UsedInOrder(failures, channels, i, k);
    if e < |failures| {
      UsedInOrder(failures, channels, i, e);
      if tries < Before(On(c), failures, e) {
        BeforeGrows(On(c), failures, 0, e);
        var j := KeptFrom(On(c), failures[..e], tries);
        assert failures[..e][..j] == failures[..j];
        UsedInOrder(failures, channels, i, j);
        assert false;
      }
      if e < k { BeforeGrows(On(c), failures, e, k); }
      if k < e { BeforeGrows(On(c), failures, k, e); }
    }
  }

  /** The records of failed tries on one channel, the last record not among them. */
  function FailuresOn(records: seq<LogInput>, channel: int): seq<LogInput>
    requires records != []
  {
    Filter(FailedOn(channel), records[..|records| - 1])
  }

  lemma {:induction false} FilterTwice<T>(p: T -> bool, q: T -> bool, both: T -> bool, s: seq<T>)
    requires forall i :: 0 <= i < |s| ==> (both(s[i]) <==> p(s[i]) && q(s[i]))
    ensures Filter(both, s) == Filter(q, Filter(p, s))
  {
    if s != [] {
      var n := |s| - 1;
      FilterTwice(p, q, both, s[..n]);
      FilterSnoc(q, Filter(p, s[..n]), s[n]);
    }
  }

  /** The k-th earlier try of a channel is explained by the k-th failure recorded for it, if there is one. */
  lemma KthTryKthFailure(records: seq<LogInput>, i: nat)
    requires records != [] && i < |Channels(records)|
    ensures var c := Channels(records)[i];
            var tries := Before(Is(c), Channels(records), i);
            Explanation(records, i) ==
            if tries < |FailuresOn(records, c)| then Some(FailuresOn(records, c)[tries]) else None
  {
    var channels, failures := Channels(records), Failures(records);
    var c := channels[i];
    var tries := Before(Is(c), channels, i);
    FilterTwice(IsFailure, On(c), FailedOn(c), records[..|records| - 1]);
    assert FailuresOn(records, c) == Filter(On(c), failures);
    var e := Explains(failures, channels, i);
    if e < |failures| {
      NextUsed(failures, channels, i, e);
      KeptAt(On(c), failures, e);
    } else if tries < |FailuresOn(records, c)| {
      var k := KeptFrom(On(c), failures, tries);
      NextUsed(failures, channels, i, k);
      assert false;
    }
  }

  // ---------- how a record ended ----------

  /** The stream was seen to end early. */
  predicate Cut(r: LogInput) { r.isStream && r.streamCompleted == Some(false) }

  predicate StreamSays(r: LogInput, stream: StreamCompletion) {
    && (stream == StreamCompleted <==> r.isStream && r.streamCompleted == Some(true))
    && (stream == StreamIncomplete <==> Cut(r))
  }

  /** What a class leads to. */
  predicate ResultSays(kind: ErrorClass, result: FinalResult) {
    && (result == Cancelled <==> kind == UserCancelled)
    && (result == Rejected <==> kind == ContentRejected)
    && (result == Incomplete <==> kind == StreamCut)
    && result in {Cancelled, Rejected, Incomplete, Failed}
  }

  /** The class an HTTP status stands for. */
  const HTTP_CLASSES: map<int, ErrorClass> :=
    map[401 := Authentication, 402 := BalanceExhausted, 404 := UpstreamUnavailable, 408 := Timeout, 429 := RateLimited,
        504 := Timeout]

  predicate HttpSays(http: int, kind: ErrorClass) {
    if http in HTTP_CLASSES then kind == HTTP_CLASSES[http]
    else kind == if 500 <= http <= 599 then UpstreamUnavailable else NoClass
  }

  /** The first class found by code, by status, by text; a cut stream where none is found. */
  predicate KindSays(byCode: ErrorClass, byHttp: ErrorClass, byText: ErrorClass, cut: bool, kind: ErrorClass) {
    var found := if byCode != NoClass then byCode else if byHttp != NoClass then byHttp else byText;
    kind == if found != NoClass && found != UnknownError then found else if cut then StreamCut else UnknownError
  }

  /** The error of a failed record, given the code and text it is classified by. */
  predicate ErrorSays(table: CodeTable, r: LogInput, code: string, text: ErrorText, error: ErrorFact) {
    && error.ErrorFact?
    && (error.code == if IsCode(Lower(Trim(code))) then Lower(Trim(code)) else "")
    && (error.summary == if text.summary == "" then FAILED_TEXT else text)
    && exists byHttp :: HttpSays(r.http, byHttp) && KindSays(table(error.code), byHttp, text.kind, Cut(r), error.kind)
  }

  /** A failed record or a cut stream ends in an error; a cut stream that was logged as a success is an error of its own. */
  predicate EndSays(table: CodeTable, r: LogInput, result: FinalResult, error: ErrorFact) {
    if r.result == Succeeded && Cut(r) then
      ErrorSays(table, r, "stream_incomplete", CUT_TEXT, error) && ResultSays(error.kind, result)
    else if r.result == Failed then
      ErrorSays(table, r, r.code, r.text, error) && ResultSays(error.kind, result)
    else
      error == NoError && result == Succeeded
  }

  lemma ClassifiedSays(table: CodeTable, r: LogInput)
    ensures ErrorSays(table, r, r.code, r.text, ClassifyRecord(table, r))
    ensures ResultSays(ClassifyRecord(table, r).kind, ResultOf(ClassifyRecord(table, r).kind))
  {
    assert HttpSays(r.http, HttpClass(r.http));
  }

  lemma StreamOfSays(r: LogInput)
    ensures StreamSays(r, StreamOf(r.isStream, r.streamCompleted))
  {
  }

  /** A channel and a time are attributed as the relations of that time say, where both are known. */
  predicate AttributionSays(ctx: Context, channel: int, at: int, attribution: Attribution) {
    && (attribution.Mapped? ==> attribution == ctx.resolve(channel, at))
    && (attribution.Mapped? <==>
          channel >= 1 && at != ZERO_TIME &&
          ctx.resolve(channel, at).Mapped? && ctx.resolve(channel, at).relation != NIL && ctx.resolve(channel, at).supplier != NIL)
  }

  // ---------- the request ----------

  predicate RequestSays(ctx: Context, records: seq<LogInput>, r: RequestFact)
    requires records != []
  {
    var t := records[|records| - 1];
    && r.source == ctx.source && r.site == ctx.site && r.requestId == t.requestId
    && r.requestHash == RequestDigest(ctx.source, ctx.site, t.requestId)
    && r.terminal == t.cursor && r.at == records[0].cursor.at
    && r.model == t.model && r.group == t.group && r.http == t.http && r.isStream == t.isStream && r.finalChannel == t.channel
    && r.firstToken == t.firstToken && r.total == t.total && r.resolution == t.resolution
    && r.prompt == t.prompt && r.completion == t.completion && r.tokens == t.prompt + t.completion
    && StreamSays(t, r.stream) && EndSays(ctx.codes, t, r.result, r.error)
    && AttributionSays(ctx, t.channel, t.cursor.at, r.attribution)
  }

  lemma RequestFields(ctx: Context, records: seq<LogInput>, hash: Digest, attempts: nat)
    requires records != []
    ensures RequestSays(
              ctx, records, Concluded(ctx, hash, Terminal(records), Fails(records), attempts, records[0].cursor.at))
  {
    ClassifiedSays(ctx.codes, Terminal(records));
    StreamOfSays(records[|records| - 1]);
  }

  // ---------- the attempts ----------

  /** The attempt was measured by this record. */
  predicate MeasuredSays(ctx: Context, r: LogInput, a: AttemptFact) {
    && a.sourceHash == AttemptDigest(LogDigest(ctx.source, ctx.site, Identity(r)), a.ordinal, a.channel)
    && a.model == r.model && a.http == r.http && a.isStream == r.isStream && a.at == r.cursor.at
    && a.firstToken == r.firstToken && a.total == r.total && a.resolution == r.resolution
    && a.visibleOutput == r.firstToken.Some?
    && StreamSays(r, a.stream) && AttributionSays(ctx, a.channel, r.cursor.at, a.attribution)
  }

  /** No record explains the attempt: it failed on its channel in an unknown way. */
  predicate AssumedSays(ctx: Context, t: LogInput, a: AttemptFact) {
    && a.sourceHash == AttemptDigest(LogDigest(ctx.source, ctx.site, Identity(t)), a.ordinal, a.channel)
    && a.model == t.model && a.at == t.cursor.at && a.http == 0 && !a.isStream && a.stream == StreamUnknown
    && a.firstToken.None? && a.total.None? && a.resolution == 0 && !a.visibleOutput && a.attribution == Pending
    && a.result == Failed && a.error == ErrorFact(UnknownError, "", ASSUMED_TEXT)
  }

  /** A cut stream that was logged as a success is judged under the code of cut streams. */
  function Judged(t: LogInput): LogInput {
    if t.result == Succeeded && Cut(t) then t.(code := "stream_incomplete") else t
  }

  predicate Numbered(ctx: Context, id: string, i: nat, a: AttemptFact) {
    && a.source == ctx.source && a.site == ctx.site && a.requestId == id && a.ordinal == i + 1
    && a.requestHash == RequestDigest(ctx.source, ctx.site, id)
  }

  /** The last attempt ends as the last record; an earlier one as the failure with its number, if there is one. */
  predicate AttemptSays(ctx: Context, records: seq<LogInput>, tried: seq<int>, i: nat, a: AttemptFact)
    requires records != [] && i < |tried|
  {
    var t, tries, on := records[|records| - 1], Before(Is(tried[i]), tried, i), FailuresOn(records, tried[i]);
    && Numbered(ctx, t.requestId, i, a) && a.channel == tried[i] && (a.isFinal <==> i == |tried| - 1)
    && if i == |tried| - 1 then
         a.sourceHash == AttemptDigest(LogDigest(ctx.source, ctx.site, Identity(Judged(t))), i + 1, a.channel)
         && a.model == t.model && a.http == t.http && a.isStream == t.isStream && a.at == t.cursor.at
         && a.firstToken == t.firstToken && a.total == t.total && a.resolution == t.resolution
         && a.visibleOutput == t.firstToken.Some?
         && StreamSays(t, a.stream) && AttributionSays(ctx, a.channel, t.cursor.at, a.attribution)
         && EndSays(ctx.codes, t, a.result, a.error)
       else if tries < |on| then
         && MeasuredSays(ctx, on[tries], a)
         && ErrorSays(ctx.codes, on[tries], on[tries].code, on[tries].text, a.error) && ResultSays(a.error.kind, a.result)
       else
         AssumedSays(ctx, t, a)
  }

  lemma MeasuredFields(ctx: Context, id: string, ordinal: nat, channel: int, r: LogInput, last: bool, failed: bool)
    ensures var a := Measured(ctx, id, ordinal, channel, r, last, failed);
            && MeasuredSays(ctx, r, a)
            && a.isFinal == last && a.ordinal == ordinal && a.channel == channel
            && (failed ==> ErrorSays(ctx.codes, r, r.code, r.text, a.error) && ResultSays(a.error.kind, a.result))
            && (!failed ==> a.error == NoError && a.result == Succeeded)
  {
    ClassifiedSays(ctx.codes, r);
    StreamOfSays(r);
  }

  lemma AttemptFields(ctx: Context, records: seq<LogInput>, i: nat)
    requires records != [] && i < |Channels(records)|
    ensures AttemptSays(ctx, records, Channels(records), i, Attempt(ctx, records, i))
  {
    var channels, t := Channels(records), Terminal(records);
    if i == |channels| - 1 {
      MeasuredFields(ctx, t.requestId, i + 1, channels[i], t, true, Fails(records));
    } else {
      KthTryKthFailure(records, i);
      var on, tries := FailuresOn(records, channels[i]), Before(Is(channels[i]), channels, i);
      if tries < |on| { MeasuredFields(ctx, t.requestId, i + 1, channels[i], on[tries], false, true); }
    }
  }

  // ---------- all facts of a request ----------

  /** The request and its attempts say exactly what the records of the request show. */
  ghost predicate FactsSay(ctx: Context, records: seq<LogInput>, tried: seq<int>, request: RequestFact, attempts: seq<AttemptFact>)
    requires records != []
  {
    && Tried(records, tried)
    && |attempts| == |tried| == request.attemptCount
    && RequestSays(ctx, records, request)
    && request.sourceHash ==
       RevisionDigest(LogDigest(ctx.source, ctx.site, Identity(records[|records| - 1])), Map(AttemptHash, attempts))
    && forall i: nat :: i < |attempts| ==> AttemptSays(ctx, records, tried, i, attempts[i])
  }

  lemma FactsExact(ctx: Context, records: seq<LogInput>)
    requires records != []
    ensures FactsSay(ctx, records, Channels(records), Request(ctx, records), AllAttempts(ctx, records))
  {
    ChannelsTried(records);
    RequestFields(ctx, records, Request(ctx, records).sourceHash, |Channels(records)|);
    forall i: nat | i < |Channels(records)|
      ensures AttemptSays(ctx, records, Channels(records), i, AllAttempts(ctx, records)[i])
    {
      AttemptFields(ctx, records, i);
    }
  }

  // ---------- nothing else says the same ----------

  lemma ErrorOnce(table: CodeTable, r: LogInput, code: string, text: ErrorText, e: ErrorFact, f: ErrorFact)
    requires ErrorSays(table, r, code, text, e) && ErrorSays(table, r, code, text, f)
    ensures e == f
  {
  }

  lemma ResultOnce(kind: ErrorClass, x: FinalResult, y: FinalResult)
    requires ResultSays(kind, x) && ResultSays(kind, y)
    ensures x == y
  {
  }

  lemma EndOnce(table: CodeTable, r: LogInput, x: FinalResult, e: ErrorFact, y: FinalResult, f: ErrorFact)
    requires EndSays(table, r, x, e) && EndSays(table, r, y, f)
    ensures x == y && e == f
  {
    if r.result == Succeeded && Cut(r) {
      ErrorOnce(table, r, "stream_incomplete", CUT_TEXT, e, f);
      ResultOnce(e.kind, x, y);
    } else if r.result == Failed {
      ErrorOnce(table, r, r.code, r.text, e, f);
      ResultOnce(e.kind, x, y);
    }
  }

  lemma AttemptOnce(ctx: Context, records: seq<LogInput>, tried: seq<int>, i: nat, a: AttemptFact, b: AttemptFact)
    requires records != [] && i < |tried|
    requires AttemptSays(ctx, records, tried, i, a) && AttemptSays(ctx, records, tried, i, b)
    ensures a == b
  {
    var tries, on := Before(Is(tried[i]), tried, i), FailuresOn(records, tried[i]);
    if i == |tried| - 1 {
      EndOnce(ctx.codes, records[|records| - 1], a.result, a.error, b.result, b.error);
    } else if tries < |on| {
      var r := on[tries];
      ErrorOnce(ctx.codes, r, r.code, r.text, a.error, b.error);
      ResultOnce(a.error.kind, a.result, b.result);
    }
  }

  /** The records determine the facts. */
  lemma FactsOnce(
    ctx: Context, records: seq<LogInput>, tried: seq<int>, request: RequestFact, attempts: seq<AttemptFact>,
    tried': seq<int>, request': RequestFact, attempts': seq<AttemptFact>)
    requires records != []
    requires FactsSay(ctx, records, tried, request, attempts) && FactsSay(ctx, records, tried', request', attempts')
    ensures tried == tried' && request == request' && attempts == attempts'
  {
    TriedOnce(records, tried, tried');
    forall i: nat | i < |attempts| ensures attempts[i] == attempts'[i] {
      AttemptOnce(ctx, records, tried, i, attempts[i], attempts'[i]);
    }
    EndOnce(ctx.codes, records[|records| - 1], request.result, request.error, request'.result, request'.error);
  }
}
