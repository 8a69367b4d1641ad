/** The byte string hashed for one log record, and why a digest stands for the record it was taken of. */
module LogHash {
  import opened Wrappers
  import opened Sequences
  import opened Text
  import opened Measurement

  function SourceText(s: Source): string {
    match s case RealTraffic => "real_traffic" case DirectProbe => "direct_probe" case SiteProbe => "site_probe"
  }

  function ResultText(r: FinalResult): string {
    match r
    case Succeeded => "succeeded"
    case Failed => "failed"
    case Cancelled => "cancelled"
    case Rejected => "rejected"
    case Incomplete => "incomplete"
    case Unrecognized => "?"
  }

  function BoolText(b: bool): string { if b then "true" else "false" }

  function OptionalBoolText(b: Option<bool>): string { if b.None? then "unknown" else BoolText(b.value) }

  function OptionalIntText(n: Option<int>): string { if n.None? then "unknown" else FormatInt(n.value) }

  /** The record as the log hash sees it: everything but the error text. */
  function Identity(r: LogInput): LogInput { r.(text := NO_TEXT) }

  function LogParts(source: Source, site: Uuid, r: LogInput): seq<string> {
    [ "new_api_log", SourceText(source), Decimal(site), FormatInt(r.cursor.at), r.cursor.source,
      r.requestId, ResultText(r.result), r.model, r.group, FormatInt(r.channel),
      CommaJoined(FormatInts(r.usedChannels)), r.code, FormatInt(r.http), BoolText(r.isStream),
      OptionalBoolText(r.streamCompleted), OptionalIntText(r.firstToken), OptionalIntText(r.total),
      FormatInt(r.resolution), FormatInt(r.prompt), FormatInt(r.completion) ]
  }

  lemma SourceTextInjective(a: Source, b: Source)
    requires SourceText(a) == SourceText(b)
    ensures a == b
  {
    assert SourceText(RealTraffic)[0] == 'r' && SourceText(DirectProbe)[0] == 'd' && SourceText(SiteProbe)[0] == 's';
  }

  lemma ResultTextInjective(a: FinalResult, b: FinalResult)
    requires ResultText(a) == ResultText(b)
    ensures a == b
  {
    assert ResultText(Succeeded)[0] == 's' && ResultText(Failed)[0] == 'f' && ResultText(Cancelled)[0] == 'c';
    assert ResultText(Rejected)[0] == 'r' && ResultText(Incomplete)[0] == 'i' && ResultText(Unrecognized)[0] == '?';
  }

  lemma OptionalBoolTextInjective(a: Option<bool>, b: Option<bool>)
    requires OptionalBoolText(a) == OptionalBoolText(b)
    ensures a == b
  {
    assert OptionalBoolText(None)[0] == 'u';
    assert OptionalBoolText(Some(true))[0] == 't' && OptionalBoolText(Some(false))[0] == 'f';
  }

  lemma OptionalIntTextInjective(a: Option<int>, b: Option<int>)
    requires OptionalIntText(a) == OptionalIntText(b)
    ensures a == b
  {
    assert OptionalIntText(None)[0] == 'u';
    if a.Some? && b.Some? { FormatIntInjective(a.value, b.value); }
  }

  /** Part lists determine the identified record, field by field. */
  lemma PartsIdentify(sa: Source, ia: Uuid, a: LogInput, sb: Source, ib: Uuid, b: LogInput)
    requires LogParts(sa, ia, a) == LogParts(sb, ib, b)
    ensures sa == sb && ia == ib && Identity(a) == Identity(b)
  {
    var p, q := LogParts(sa, ia, a), LogParts(sb, ib, b);
    PartsIdentifyHead(p, q, sa, ia, a, sb, ib, b);
    PartsIdentifyTail(p, q, a, b);
  }

  lemma PartsIdentifyHead(
    p: seq<string>, q: seq<string>, sa: Source, ia: Uuid, a: LogInput, sb: Source, ib: Uuid, b: LogInput)
    requires |p| == 20 && p == q && p == LogParts(sa, ia, a) && q == LogParts(sb, ib, b)
    ensures sa == sb && ia == ib && a.cursor == b.cursor
    ensures a.requestId == b.requestId && a.result == b.result && a.model == b.model && a.group == b.group
  {
    assert p[1] == SourceText(sa) && p[2] == Decimal(ia) && p[3] == FormatInt(a.cursor.at) && p[4] == a.cursor.source;
    assert q[1] == SourceText(sb) && q[2] == Decimal(ib) && q[3] == FormatInt(b.cursor.at) && q[4] == b.cursor.source;
    assert p[5] == a.requestId && p[6] == ResultText(a.result) && p[7] == a.model && p[8] == a.group;
    assert q[5] == b.requestId && q[6] == ResultText(b.result) && q[7] == b.model && q[8] == b.group;
    SourceTextInjective(sa, sb);
    DecimalRoundTrip(ia);
    DecimalRoundTrip(ib);
    FormatIntInjective(a.cursor.at, b.cursor.at);
    ResultTextInjective(a.result, b.result);
  }

  lemma PartsIdentifyTail(p: seq<string>, q: seq<string>, a: LogInput, b: LogInput)
    requires |p| == 20 && p == q
    requires p == p[..9] + LogParts(RealTraffic, 0, a)[9..] && q == q[..9] + LogParts(RealTraffic, 0, b)[9..]
    ensures a.channel == b.channel && a.usedChannels == b.usedChannels && a.code == b.code && a.http == b.http
    ensures a.isStream == b.isStream && a.streamCompleted == b.streamCompleted
    ensures a.firstToken == b.firstToken && a.total == b.total && a.resolution == b.resolution
    ensures a.prompt == b.prompt && a.completion == b.completion
  {
    var s, t := LogParts(RealTraffic, 0, a), LogParts(RealTraffic, 0, b);
    assert forall i :: 9 <= i < 20 ==> s[i] == p[i] == q[i] == t[i];
    assert s[9] == t[9] && s[10] == t[10] && s[11] == t[11] && s[12] == t[12] && s[13] == t[13] && s[14] == t[14];
    FormatIntInjective(a.channel, b.channel);
    JoinedIntsInjective(a.usedChannels, b.usedChannels);
    FormatIntInjective(a.http, b.http);
    OptionalBoolTextInjective(Some(a.isStream), Some(b.isStream));
    OptionalBoolTextInjective(a.streamCompleted, b.streamCompleted);
    assert s[15] == t[15] && s[16] == t[16] && s[17] == t[17] && s[18] == t[18] && s[19] == t[19];
    OptionalIntTextInjective(a.firstToken, b.firstToken);
    OptionalIntTextInjective(a.total, b.total);
    FormatIntInjective(a.resolution, b.resolution);
    FormatIntInjective(a.prompt, b.prompt);
    FormatIntInjective(a.completion, b.completion);
  }

  // ---------- the other digests ----------

  /** The digests a digest is taken of. */
  function Inner(d: Digest): seq<Digest> {
    match d
    case AttemptDigest(base, _, _) => [base]
    case RevisionDigest(terminal, attempts) => [terminal] + attempts
    case _ => []
  }

  /** Digests as texts of 64 characters, without a collision among the ones that occur in these two. */
  ghost predicate Hexes(hex: Digest -> string, a: Digest, b: Digest) {
    && (forall d :: |hex(d)| == 64)
    && forall x <- Inner(a), y <- Inner(b) :: hex(x) == hex(y) ==> x == y
  }

  /** What is hashed for each kind of digest; digests occur as their text. */
  function DigestParts(hex: Digest -> string, d: Digest): seq<string> {
    match d
    case LogDigest(source, site, record) => LogParts(source, site, record)
    case AttemptDigest(base, ordinal, channel) => [hex(base), "attempt", FormatInt(ordinal), FormatInt(channel)]
    case RequestDigest(source, site, requestId) => ["request", SourceText(source), Decimal(site), requestId]
    case QuarantineDigest(source, site, cursor) =>
      ["quarantine", SourceText(source), Decimal(site), FormatInt(cursor.at), cursor.source]
    case RevisionDigest(terminal, attempts) => ["new_api_request_revision"] + Map(hex, [terminal] + attempts)
  }

  /** Log digests are taken of what the log hash sees. */
  predicate Canonical(d: Digest) { d.LogDigest? ==> d.record == Identity(d.record) }

  function Kind(d: Digest): nat {
    match d
    case LogDigest(_, _, _) => 11
    case AttemptDigest(_, _, _) => 64
    case RequestDigest(_, _, _) => 7
    case QuarantineDigest(_, _, _) => 10
    case RevisionDigest(_, _) => 24
  }

  /** The length of the first part tells the kinds apart. */
  lemma FirstPart(hex: Digest -> string, d: Digest)
    requires forall x :: |hex(x)| == 64
    ensures DigestParts(hex, d) != [] && |DigestParts(hex, d)[0]| == Kind(d)
  {
  }

  lemma TextsIdentify(hex: Digest -> string, a: seq<Digest>, b: seq<Digest>)
    requires Map(hex, a) == Map(hex, b) && forall x <- a, y <- b :: hex(x) == hex(y) ==> x == y
    ensures a == b
  {
    assert |a| == |Map(hex, a)| == |b|;
    forall i | 0 <= i < |a| ensures a[i] == b[i] { assert Map(hex, a)[i] == Map(hex, b)[i]; }
  }

  lemma SameInner(a: Digest, b: Digest)
    requires a.RevisionDigest? && b.RevisionDigest? && Inner(a) == Inner(b)
    ensures a == b
  {
    assert a.terminal == Inner(a)[0] && b.terminal == Inner(b)[0];
    assert a.attempts == Inner(a)[1..] && b.attempts == Inner(b)[1..];
  }

  lemma RevisionPartsIdentify(hex: Digest -> string, a: Digest, b: Digest)
    requires Hexes(hex, a, b) && a.RevisionDigest? && b.RevisionDigest? && DigestParts(hex, a) == DigestParts(hex, b)
    ensures Inner(a) == Inner(b)
  {
    var s, t := Inner(a), Inner(b);
    assert DigestParts(hex, a)[1..] == Map(hex, s) && DigestParts(hex, b)[1..] == Map(hex, t);
    TextsIdentify(hex, s, t);
  }

  lemma SmallPartsIdentify(hex: Digest -> string, a: Digest, b: Digest)
    requires Hexes(hex, a, b) && Kind(a) == Kind(b) && !a.RevisionDigest? && !a.LogDigest? && DigestParts(hex, a) == DigestParts(hex, b)
    ensures a == b
  {
    var p, q := DigestParts(hex, a), DigestParts(hex, b);
    assert p[0] == q[0] && p[1] == q[1] && p[2] == q[2] && p[3] == q[3];
    match a
    case AttemptDigest(base, ordinal, channel) =>
      assert base == Inner(a)[0] && b.base == Inner(b)[0];
      FormatIntInjective(ordinal, b.ordinal);
      FormatIntInjective(channel, b.channel);
    case RequestDigest(source, site, _) =>
      SourceTextInjective(source, b.source);
      DecimalRoundTrip(site);
      DecimalRoundTrip(b.site);
    case QuarantineDigest(source, site, cursor) =>
      assert p[4] == q[4];
      SourceTextInjective(source, b.source);
      DecimalRoundTrip(site);
      DecimalRoundTrip(b.site);
      FormatIntInjective(cursor.at, b.cursor.at);
  }

  /**
   Two digests of any kind feed SHA-256 the same bytes only when they are one: a digest
   stands for its kind and everything it was taken of.
   */
  lemma DigestsIdentify(hex: Digest -> string, a: Digest, b: Digest)
    requires Hexes(hex, a, b) && Canonical(a) && Canonical(b) && Fits(DigestParts(hex, a)) && Fits(DigestParts(hex, b))
    ensures Frame(DigestParts(hex, a)) == Frame(DigestParts(hex, b)) <==> a == b
  {
    if Frame(DigestParts(hex, a)) == Frame(DigestParts(hex, b)) {
      FrameInjective(DigestParts(hex, a), DigestParts(hex, b));
      FirstPart(hex, a);
      FirstPart(hex, b);
      assert Kind(a) == Kind(b);
      if a.LogDigest? {
        PartsIdentify(a.source, a.site, a.record, b.source, b.site, b.record);
      } else if a.RevisionDigest? {
        RevisionPartsIdentify(hex, a, b);
        SameInner(a, b);
      } else {
        SmallPartsIdentify(hex, a, b);
      }
    }
  }

  // ---------- log digests ----------

  /** Every part is short enough for its eight-byte length prefix. */
  predicate Fits(parts: seq<string>) { forall i :: 0 <= i < |parts| ==> |parts[i]| < Power256(8) }

  /**
   Two records feed SHA-256 the same bytes exactly when they agree on everything but
   their error text: the error text is the one field the log hash ignores.
   */
  lemma EqualHashes(sa: Source, ia: Uuid, a: LogInput, sb: Source, ib: Uuid, b: LogInput)
    requires Fits(LogParts(sa, ia, a)) && Fits(LogParts(sb, ib, b))
    ensures Frame(LogParts(sa, ia, a)) == Frame(LogParts(sb, ib, b)) <==>
            sa == sb && ia == ib && Identity(a) == Identity(b)
  {
    if Frame(LogParts(sa, ia, a)) == Frame(LogParts(sb, ib, b)) {
      FrameInjective(LogParts(sa, ia, a), LogParts(sb, ib, b));
      PartsIdentify(sa, ia, a, sb, ib, b);
    }
    if sa == sb && ia == ib && Identity(a) == Identity(b) {
      assert LogParts(sa, ia, a) == LogParts(sa, ia, Identity(a));
      assert LogParts(sb, ib, b) == LogParts(sb, ib, Identity(b));
    }
  }
}
