/** Remote log records and their translation into measurement inputs. */
module RemoteLogs {
  import opened Wrappers
  import opened Sequences
  import opened Cursors
  import opened Measurement
  import opened ErrorClasses
  import opened Conversion
  import opened Batches

  /** The part of the record's JSON metadata that is used, already decoded. */
  datatype Metadata = Metadata(
    usedChannels: seq<int>, code: string, http: int, firstToken: Option<int>, streamCompleted: Option<bool>)

  datatype RemoteLog = RemoteLog(
    id: int, createdAt: int, kind: int, requestId: string, model: string, group: string, channel: int,
    duration: int, stream: bool, input: int, output: int, text: ErrorText, meta: Metadata)

  predicate Locatable(log: RemoteLog) { log.id >= 0 && log.createdAt > 0 }

  function CursorOfLog(log: RemoteLog): Cursor
    requires Locatable(log)
  {
    LogCursor(log.createdAt, log.kind, log.id)
  }

  /** The input of a log, or the reason to set it aside. */
  function ToInput(log: RemoteLog): Result<LogInput, Reason>
    requires Locatable(log)
  {
    if log.duration < 0 || log.duration > MAX_INT64 / 1000 then Failure(InvalidDuration)
    else if log.kind != ERROR_LOG && log.kind != CONSUME_LOG then Failure(UnsupportedLogType)
    else
      var cut := log.kind == CONSUME_LOG && log.meta.streamCompleted == Some(false);
      Success(LogInput(
        CursorOfLog(log), log.requestId, if log.kind == ERROR_LOG || cut then Failed else Succeeded,
        log.model, log.group, log.channel, log.meta.usedChannels,
        if cut && log.meta.code == "" then "stream_incomplete" else log.meta.code, log.meta.http,
        if cut && log.text.blank then CUT_TEXT else log.text,
        log.stream, log.meta.streamCompleted, log.meta.firstToken, Some(log.duration * 1000), 1000, log.input, log.output))
  }

  // ---------- what becomes of a log ----------

  /** The log is converted; any other is set aside. */
  predicate Taken(log: RemoteLog) { 0 <= log.duration <= 9223372036854775 && (log.kind == 5 || log.kind == 2) }

  /** A success whose stream was seen to end early counts as a failure. */
  predicate EndsEarly(log: RemoteLog) { log.kind == 2 && log.meta.streamCompleted == Some(false) }

  /** The input says what the log shows; whole seconds become milliseconds. */
  predicate InputSays(log: RemoteLog, r: LogInput) {
    && r.cursor == LogCursor(log.createdAt, log.kind, if log.id >= 0 then log.id else 0)
    && r.requestId == log.requestId && r.model == log.model && r.group == log.group
    && (r.result == if log.kind == 5 || EndsEarly(log) then Failed else Succeeded)
    && r.channel == log.channel && r.usedChannels == log.meta.usedChannels
    && (r.code == if EndsEarly(log) && log.meta.code == "" then "stream_incomplete" else log.meta.code)
    && (r.text == if EndsEarly(log) && log.text.blank then CUT_TEXT else log.text)
    && r.http == log.meta.http && r.isStream == log.stream && r.streamCompleted == log.meta.streamCompleted
    && r.firstToken == log.meta.firstToken && r.total == Some(1000 * log.duration) && r.resolution == 1000
    && r.prompt == log.input && r.completion == log.output
  }

  /** Set aside for its duration, or else for its kind. */
  predicate AsideSays(log: RemoteLog, aside: (Cursor, Reason)) {
    && aside.0 == LogCursor(log.createdAt, log.kind, if log.id >= 0 then log.id else 0)
    && aside.1 == if log.duration < 0 || log.duration > 9223372036854775 then InvalidDuration else UnsupportedLogType
  }

  lemma ToInputSays(log: RemoteLog)
    requires Locatable(log)
    ensures ToInput(log).Success? <==> Taken(log)
    ensures ToInput(log).Success? ==> InputSays(log, ToInput(log).value)
    ensures ToInput(log).Failure? ==> AsideSays(log, (CursorOfLog(log), ToInput(log).error))
  {
    assert MAX_INT64 / 1000 == 9223372036854775;
  }

  predicate NotTaken(log: RemoteLog) { !Taken(log) }

  /** The taken logs give the inputs and the others are set aside, both in order. */
  ghost predicate WindowSays(logs: seq<RemoteLog>, inputs: seq<LogInput>, aside: seq<(Cursor, Reason)>) {
    var taken, others := Filter(Taken, logs), Filter(NotTaken, logs);
    && |inputs| == |taken| && (forall k :: 0 <= k < |inputs| ==> InputSays(taken[k], inputs[k]))
    && |aside| == |others| && (forall k :: 0 <= k < |aside| ==> AsideSays(others[k], aside[k]))
  }

  lemma {:induction false} WindowSplits(logs: seq<RemoteLog>)
    requires AllLocatable(logs)
    ensures WindowSays(logs, Inputs(logs), SetAside(logs))
  {
    if logs != [] {
      WindowSplits(logs[..|logs| - 1]);
      ToInputSays(logs[|logs| - 1]);
    }
  }

  predicate AllLocatable(logs: seq<RemoteLog>) { forall i :: 0 <= i < |logs| ==> Locatable(logs[i]) }

  /** The inputs of a window, in order, without the logs set aside. */
  function Inputs(logs: seq<RemoteLog>): seq<LogInput>
    requires AllLocatable(logs)
  {
    if logs == [] then []
    else
      var before, last := Inputs(logs[..|logs| - 1]), ToInput(logs[|logs| - 1]);
      if last.Success? then before + [last.value] else before
  }

  /** The logs set aside before conversion. */
  function SetAside(logs: seq<RemoteLog>): seq<(Cursor, Reason)>
    requires AllLocatable(logs)
  {
    if logs == [] then []
    else
      var before, log := SetAside(logs[..|logs| - 1]), logs[|logs| - 1];
      if ToInput(log).Failure? then before + [(CursorOfLog(log), ToInput(log).error)] else before
  }

  // ---------- a window of well identified logs always converts ----------

  /** Distinct logs of the window have distinct positions (second, type order, identifier). */
  ghost predicate WellIdentified(logs: seq<RemoteLog>) {
    && AllLocatable(logs)
    && (forall i :: 0 <= i < |logs| ==> logs[i].id <= MAX_INT64)
    && forall i, j :: 0 <= i < |logs| && 0 <= j < |logs| && SamePosition(logs[i], logs[j]) ==> logs[i] == logs[j]
  }

  predicate SamePosition(a: RemoteLog, b: RemoteLog) {
    a.createdAt == b.createdAt && LogOrder(a.kind) == LogOrder(b.kind) && a.id == b.id
  }

  lemma LogCursorValid(log: RemoteLog)
    requires Locatable(log) && log.id <= MAX_INT64
    ensures CursorOfLog(log).Valid()
  {
    var s := SourceId(log.kind, log.id);
    assert Text.Decimal(LogOrder(log.kind)) == [Text.DigitChar(LogOrder(log.kind))];
    assert |s| == 22;
    assert s[0] == Text.DigitChar(LogOrder(log.kind)) && !Text.IsSpace(s[0]);
    Text.PaddedDigits(log.id, 20);
    forall i | 0 <= i < |s| ensures s[i] !in "\0\r\n" {
      if i >= 2 { assert s[i] == Text.Padded(log.id, 20)[i - 2]; }
    }
  }

  lemma {:induction false} InputOrigin(logs: seq<RemoteLog>)
    requires AllLocatable(logs)
    ensures forall r <- Inputs(logs) :: exists i :: 0 <= i < |logs| && ToInput(logs[i]) == Success(r)
  {
    if logs != [] {
      var n := |logs| - 1;
      InputOrigin(logs[..n]);
      forall r | r in Inputs(logs) ensures exists i :: 0 <= i < |logs| && ToInput(logs[i]) == Success(r) {
        if r in Inputs(logs[..n]) {
          var i :| 0 <= i < n && ToInput(logs[..n][i]) == Success(r);
          assert ToInput(logs[i]) == Success(r);
        } else {
          assert ToInput(logs[n]) == Success(r);
        }
      }
    }
  }

  predicate SummariesStorable(logs: seq<RemoteLog>) { forall i :: 0 <= i < |logs| ==> SummaryOf(logs[i].text).storable }

  lemma InputShape(log: RemoteLog)
    requires Locatable(log) && log.id <= MAX_INT64 && SummaryOf(log.text).storable && ToInput(log).Success?
    ensures ToInput(log).value.cursor == CursorOfLog(log) && CursorOfLog(log).Valid()
    ensures forall failed :: Storable(ToInput(log).value, failed)
  {
    LogCursorValid(log);
  }

  /** Inputs with the same cursor come from the same log. */
  lemma InputsIdentified(logs: seq<RemoteLog>, a: LogInput, b: LogInput)
    requires WellIdentified(logs) && SummariesStorable(logs)
    requires a in Inputs(logs) && b in Inputs(logs) && a.cursor == b.cursor
    ensures a == b
  {
    InputOrigin(logs);
    var i :| 0 <= i < |logs| && ToInput(logs[i]) == Success(a);
    var j :| 0 <= j < |logs| && ToInput(logs[j]) == Success(b);
    InputShape(logs[i]);
    InputShape(logs[j]);
    LogCursorIdentifies(logs[i].createdAt, logs[i].kind, logs[i].id, logs[j].createdAt, logs[j].kind, logs[j].id);
  }

  lemma StorableGroups(inputs: seq<LogInput>, id: string)
    requires forall r <- inputs :: forall failed :: Storable(r, failed)
    requires Group(id, Valids(inputs)) != []
    ensures GroupStorable(Group(id, Valids(inputs)))
  {
    var g := Group(id, Valids(inputs));
    FilterMembers(OfRequest(id), Valids(inputs));
    FilterMembers(ValidRecord, Records(inputs));
    RecordsSubset(inputs);
    var t := g[|g| - 1];
    assert t in g && t in inputs;
    assert Storable(t, Fails(g));
    forall i | 0 <= i < |Channels(g)| - 1 && Explanation(g, i).Some?
      ensures Storable(Explanation(g, i).value, true)
    {
      FilterMembers(IsFailure, g[..|g| - 1]);
      assert Explanation(g, i).value in g;
      assert Explanation(g, i).value in inputs;
    }
  }

  lemma DistinctInvalids(inputs: seq<LogInput>)
    requires forall a <- inputs, b <- inputs :: a.cursor == b.cursor ==> a == b
    ensures NoDup(Map(CursorOf, Invalids(inputs)))
  {
    var bad := Invalids(inputs);
    FilterMembers(InvalidRecord, Records(inputs));
    RecordsSubset(inputs);
    InvalidsDistinct(inputs);
    forall i, j | 0 <= i < j < |bad| ensures bad[i].cursor != bad[j].cursor {
      assert bad[i] in bad && bad[j] in bad;
    }
  }

  lemma InvalidsDistinct(inputs: seq<LogInput>)
    ensures NoDup(Invalids(inputs))
  {
    DedupDistinctKeys(LogHash.Identity, StableSort(InputLe, inputs));
    assert NoDup(Records(inputs));
    FilterNoDup(InvalidRecord, Records(inputs));
  }

  /**
   Every window the collector reads converts, provided log positions identify logs and
   error summaries are storable: durations and resolutions the reader produces always fit.
   */
  lemma WindowConverts(ctx: Context, from: Cursor, logs: seq<RemoteLog>)
    requires ctx.source != DirectProbe && ctx.site != NIL && (from.IsZero() || from.Valid())
    requires WellIdentified(logs) && SummariesStorable(logs)
    ensures Convert(ctx, from, Inputs(logs)).Some?
  {
    var inputs := Inputs(logs);
    InputOrigin(logs);
    forall r | r in inputs ensures r.cursor.Valid() && forall failed :: Storable(r, failed) {
      var i :| 0 <= i < |logs| && ToInput(logs[i]) == Success(r);
      InputShape(logs[i]);
    }
    forall i | 0 <= i < |inputs| ensures inputs[i].cursor.Valid() { assert inputs[i] in inputs; }
    forall a, b | a in inputs && b in inputs && a.cursor == b.cursor ensures a == b {
      InputsIdentified(logs, a, b);
    }
    DistinctInvalids(inputs);
    forall id | Group(id, Valids(inputs)) != [] ensures GroupStorable(Group(id, Valids(inputs))) {
      StorableGroups(inputs, id);
    }
    ConvertSucceeds(ctx, from, inputs);
  }
}
