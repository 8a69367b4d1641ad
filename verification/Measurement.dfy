/** Log records, measurement facts and the rules a stored batch must satisfy. */
module Measurement {
  import opened Wrappers
  import opened Text
  import opened Cursors

  const MAX_INT64 := 0x7FFF_FFFF_FFFF_FFFF

  type Uuid = nat
  const NIL: Uuid := 0

  datatype Source = RealTraffic | DirectProbe | SiteProbe
  datatype FinalResult = Succeeded | Failed | Cancelled | Rejected | Incomplete | Unrecognized
  datatype StreamCompletion = StreamUnknown | StreamCompleted | StreamIncomplete

  /** Why a record is set aside; the codes are constants of the program. */
  datatype Reason =
    | NoReason | InvalidRequestId | InvalidResult | InvalidModelOrGroup | InvalidChannel | InvalidChannelSequence
    | InvalidHttpStatus | InvalidTokenUsage | InvalidDuration | UnsupportedLogType

  datatype ErrorClass =
    | NoClass | RateLimited | Authentication | BalanceExhausted | Timeout | InvalidRequest
    | UpstreamUnavailable | StreamCut | UserCancelled | ContentRejected | UnknownError

  datatype Attribution = Mapped(relation: Uuid, supplier: Uuid) | Pending {
    predicate Valid(source: Source) {
      Mapped? ==> supplier != NIL && (source != DirectProbe ==> relation != NIL)
    }
  }

  /**
   An error text as redaction sees it: the summary it leaves, whether that summary may be
   stored (at most 240 characters, and redacting it again changes nothing), the class the
   table of text terms gives it, NoClass when no term occurs, and whether the text itself was
   nothing but white space.
   */
  datatype ErrorText = ErrorText(summary: string, storable: bool, kind: ErrorClass, blank: bool)

  const NO_TEXT := ErrorText("", true, NoClass, true)
  const CUT_TEXT := ErrorText("stream incomplete", true, StreamCut, false)
  const FAILED_TEXT := ErrorText("upstream request failed", true, NoClass, false)
  const ASSUMED_TEXT := ErrorText("channel failed before retry", true, NoClass, false)

  /** One parsed New API log record. */
  datatype LogInput = LogInput(
    cursor: Cursor, requestId: string, result: FinalResult, model: string, group: string,
    channel: int, usedChannels: seq<int>, code: string, http: int, text: ErrorText,
    isStream: bool, streamCompleted: Option<bool>,
    firstToken: Option<int>, total: Option<int>, resolution: int, prompt: int, completion: int)

  /**
   A SHA-256 digest, identified with the parts it was computed from. That the parts
   determine the hashed bytes and are determined by them is LogHash.DigestsIdentify.
   */
  datatype Digest =
    | LogDigest(source: Source, site: Uuid, record: LogInput)
    | AttemptDigest(base: Digest, ordinal: nat, channel: int)
    | RequestDigest(source: Source, site: Uuid, requestId: string)
    | QuarantineDigest(source: Source, site: Uuid, cursor: Cursor)
    | RevisionDigest(terminal: Digest, attempts: seq<Digest>)

  datatype ErrorFact = NoError | ErrorFact(kind: ErrorClass, code: string, summary: ErrorText)

  datatype RequestFact = RequestFact(
    sourceHash: Digest, requestHash: Digest, source: Source, site: Uuid, requestId: string,
    terminal: Cursor, model: string, group: string, result: FinalResult, http: int,
    isStream: bool, stream: StreamCompletion, finalChannel: int, attribution: Attribution,
    firstToken: Option<int>, total: Option<int>, resolution: int,
    prompt: int, completion: int, tokens: int, attemptCount: nat, at: int, error: ErrorFact)

  datatype AttemptFact = AttemptFact(
    sourceHash: Digest, requestHash: Digest, source: Source, site: Uuid, requestId: string,
    ordinal: nat, channel: int, model: string, attribution: Attribution, result: FinalResult,
    http: int, isFinal: bool, isStream: bool, visibleOutput: bool, stream: StreamCompletion,
    firstToken: Option<int>, total: Option<int>, resolution: int, at: int, error: ErrorFact)

  datatype QuarantineFact = QuarantineFact(
    sourceHash: Digest, source: Source, site: Uuid, cursor: Cursor, reason: Reason)

  datatype Batch = Batch(
    source: Source, site: Uuid, from: Cursor, next: Cursor,
    requests: seq<RequestFact>, attempts: seq<AttemptFact>, quarantines: seq<QuarantineFact>)

  predicate CodeChar(c: char) { 'a' <= c <= 'z' || IsDigit(c) }

  /** The pattern of stable error codes and quarantine reasons. */
  predicate IsCode(s: string) {
    && 1 <= |s| <= 80 && CodeChar(s[0])
    && forall i :: 0 < i < |s| ==> CodeChar(s[i]) || s[i] in "_.:-"
  }

  predicate ValidStatus(http: int) { http == 0 || 100 <= http <= 599 }

  predicate ValidDurations(firstToken: Option<int>, total: Option<int>) {
    && (firstToken.Some? ==> firstToken.value >= 0)
    && (total.Some? ==> total.value >= 0)
    && (firstToken.Some? && total.Some? ==> firstToken.value <= total.value)
  }

  predicate ValidResolution(total: Option<int>, resolution: int) {
    if total.None? then resolution == 0 else resolution == 1 || resolution == 1000
  }

  predicate ValidTokens(prompt: int, completion: int) {
    0 <= prompt && 0 <= completion && prompt <= MAX_INT64 - completion
  }

  predicate ValidRequestId(id: string) { !Blank(id) && |id| <= 128 && !ContainsAny(id, "\0\r\n") }

  predicate ValidModel(model: string, group: string) {
    !Blank(model) && |model| <= 191 && |group| <= 64 && !ContainsAny(model + group, "\0\r\n")
  }

  predicate ValidScope(source: Source, site: Uuid) { source == DirectProbe || site != NIL }

  predicate ValidError(e: ErrorFact, required: bool) {
    if required then
      e.ErrorFact? && e.kind != NoClass && (e.code != "" ==> IsCode(e.code)) && e.summary.storable
    else
      e.NoError?
  }

  predicate ValidRequest(r: RequestFact) {
    && ValidScope(r.source, r.site) && ValidRequestId(r.requestId)
    && r.terminal.Valid() && r.at <= r.terminal.at
    && ValidModel(r.model, r.group)
    && r.result != Unrecognized
    && ValidStatus(r.http) && r.finalChannel >= 0 && r.attemptCount >= 1
    && (!r.isStream ==> r.stream == StreamUnknown)
    && r.attribution.Valid(r.source)
    && ValidDurations(r.firstToken, r.total) && ValidResolution(r.total, r.resolution)
    && ValidTokens(r.prompt, r.completion) && r.tokens == r.prompt + r.completion
    && r.at != ZERO_TIME
    && ValidError(r.error, r.result != Succeeded)
  }

  predicate ValidAttempt(a: AttemptFact) {
    && ValidScope(a.source, a.site)
    && !Blank(a.requestId) && !ContainsAny(a.requestId, "\0\r\n") && a.ordinal >= 1 && a.channel >= 0
    && !Blank(a.model) && |a.model| <= 191 && !ContainsAny(a.model, "\0\r\n")
    && a.result != Unrecognized && ValidStatus(a.http)
    && (!a.isStream ==> a.stream == StreamUnknown)
    && a.visibleOutput == a.firstToken.Some?
    && a.attribution.Valid(a.source)
    && ValidDurations(a.firstToken, a.total) && ValidResolution(a.total, a.resolution)
    && a.at != ZERO_TIME
    && ValidError(a.error, a.result != Succeeded)
  }

  predicate ValidQuarantine(q: QuarantineFact) {
    q.source != DirectProbe && q.site != NIL && q.cursor.Valid() && q.reason != NoReason
  }

  // ---------- the structural rules of a batch ----------

  function Ordinals(attempts: seq<AttemptFact>, hash: Digest): set<nat> {
    set i | 0 <= i < |attempts| && attempts[i].requestHash == hash :: attempts[i].ordinal
  }

  ghost predicate RequestsDistinct(requests: seq<RequestFact>) {
    forall i, j :: 0 <= i < j < |requests| ==> requests[i].requestHash != requests[j].requestHash
  }

  ghost predicate AttemptsDistinct(attempts: seq<AttemptFact>) {
    forall i, j :: 0 <= i < j < |attempts| ==>
      && attempts[i].sourceHash != attempts[j].sourceHash
      && (attempts[i].requestHash == attempts[j].requestHash ==> attempts[i].ordinal != attempts[j].ordinal)
  }

  ghost predicate QuarantinesDistinct(quarantines: seq<QuarantineFact>) {
    forall i, j :: 0 <= i < j < |quarantines| ==> quarantines[i].sourceHash != quarantines[j].sourceHash
  }

  ghost predicate Belongs(a: AttemptFact, requests: seq<RequestFact>) {
    exists k :: 0 <= k < |requests| && requests[k].requestHash == a.requestHash && requests[k].requestId == a.requestId
  }

  /** The attempt agrees with its request: the last one is final and matches, no other is final. */
  predicate Agrees(a: AttemptFact, r: RequestFact) {
    if a.ordinal == r.attemptCount then
      a.channel == r.finalChannel && a.http == r.http && a.isStream == r.isStream && a.isFinal && a.result == r.result
    else
      !a.isFinal
  }

  ghost predicate Complete(r: RequestFact, attempts: seq<AttemptFact>) {
    && (forall k: nat :: k in Ordinals(attempts, r.requestHash) <==> 1 <= k <= r.attemptCount)
    && forall i :: 0 <= i < |attempts| && attempts[i].requestHash == r.requestHash ==> Agrees(attempts[i], r)
  }

  ghost predicate ValidFacts(
    source: Source, site: Uuid, requests: seq<RequestFact>, attempts: seq<AttemptFact>)
  {
    && RequestsDistinct(requests) && AttemptsDistinct(attempts)
    && (forall r <- requests :: ValidRequest(r) && r.source == source && r.site == site)
    && (forall a <- attempts ::
          ValidAttempt(a) && a.source == source && a.site == site && Belongs(a, requests))
    && (forall r <- requests :: Complete(r, attempts))
  }

  ghost predicate ValidBatch(b: Batch) {
    && ValidScope(b.source, b.site)
    && (!b.from.IsZero() ==> b.from.Valid())
    && (!b.next.IsZero() ==> b.next.Valid())
    && (!b.from.IsZero() && !b.next.IsZero() ==> CursorLe(b.from, b.next))
    && ValidFacts(b.source, b.site, b.requests, b.attempts)
    && QuarantinesDistinct(b.quarantines)
    && forall q <- b.quarantines :: ValidQuarantine(q) && q.source == b.source && q.site == b.site
  }
}
