/** Classification of a failed request by stable code, then HTTP status, then redacted text. */
module ErrorClasses {
  import opened Wrappers
  import opened Text
  import opened Measurement

  function NormalizeCode(code: string): string {
    var normalized := Lower(Trim(code));
    if IsCode(normalized) then normalized else ""
  }

  /** The table of stable codes; NoClass means the code has no entry. */
  type CodeTable = string -> ErrorClass

  function HttpClass(status: int): ErrorClass {
    if status == 401 then Authentication
    else if status == 402 then BalanceExhausted
    else if status == 408 || status == 504 then Timeout
    else if status == 429 then RateLimited
    else if status == 404 || 500 <= status < 600 then UpstreamUnavailable
    else NoClass
  }

  function SummaryOf(text: ErrorText): ErrorText { if text.summary == "" then FAILED_TEXT else text }

  function ClassOf(table: CodeTable, code: string, http: int, text: ErrorText): ErrorClass {
    if table(code) != NoClass then table(code)
    else if HttpClass(http) != NoClass then HttpClass(http)
    else if text.kind != NoClass then text.kind
    else UnknownError
  }

  function Classify(table: CodeTable, code: string, http: int, text: ErrorText): ErrorFact {
    var normalized := NormalizeCode(code);
    ErrorFact(ClassOf(table, normalized, http, text), normalized, SummaryOf(text))
  }

  function StreamOf(isStream: bool, completed: Option<bool>): StreamCompletion {
    if !isStream || completed.None? then StreamUnknown
    else if completed.value then StreamCompleted
    else StreamIncomplete
  }

  function ClassifyRecord(table: CodeTable, r: LogInput): ErrorFact {
    var e := Classify(table, r.code, r.http, r.text);
    if e.kind == UnknownError && StreamOf(r.isStream, r.streamCompleted) == StreamIncomplete then
      e.(kind := StreamCut)
    else
      e
  }

  function ResultOf(kind: ErrorClass): FinalResult {
    match kind
    case UserCancelled => Cancelled
    case ContentRejected => Rejected
    case StreamCut => Incomplete
    case _ => Failed
  }

  /** The classified error of a record is storable exactly when its summary is. */
  lemma ClassifiedErrorValid(table: CodeTable, r: LogInput)
    ensures ValidError(ClassifyRecord(table, r), true) <==> SummaryOf(r.text).storable
    ensures ResultOf(ClassifyRecord(table, r).kind) !in {Succeeded, Unrecognized}
  {
  }
}
