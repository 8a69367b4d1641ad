/** Hard gates, streaks over adjacent score runs, and the advice for one supplier and model. */
module Advice {
  import opened Wrappers
  import opened Scoring
  import opened WindowScores

  // ---------- hard gates ----------

  datatype Check = Pending | Pass | Fail

  datatype Authenticity = AuthPending | Consistent | Suspicious | Inconsistent

  datatype Gate = AuthenticityMismatch | CredentialInvalid | BalanceUnavailable | ConsecutiveFailures | MajorRisk

  datatype GateInput = GateInput(
    authenticity: Authenticity, credential: Check, balance: Check, riskAbsent: Check, failures: nat)

  datatype GateResult = GateResult(failed: seq<Gate>, pending: seq<Gate>) {
    predicate Excluded() { failed != [] }
  }

  function OfCheck(check: Check, gate: Gate): (seq<Gate>, seq<Gate>) {
    match check
    case Pending => ([], [gate])
    case Pass => ([], [])
    case Fail => ([gate], [])
  }

  /** Every failed and every pending gate, in a fixed order; a limit of zero is refused. */
  function EvaluateGates(input: GateInput, failureLimit: nat): Option<GateResult> {
    if failureLimit == 0 then None
    else
      var a := OfCheck(
        match input.authenticity
        case AuthPending => Pending
        case Inconsistent => Fail
        case _ => Pass, AuthenticityMismatch);
      var c, b, r := OfCheck(input.credential, CredentialInvalid), OfCheck(input.balance, BalanceUnavailable), OfCheck(input.riskAbsent, MajorRisk);
      var f := if input.failures >= failureLimit then [ConsecutiveFailures] else [];
      Some(GateResult(a.0 + c.0 + b.0 + f + r.0, a.1 + c.1 + b.1 + r.1))
  }

  // ---------- the advice ----------

  datatype Policy = Policy(join: real, exit: real, required: nat, failureLimit: nat)

  /** The policy scores are run with. */
  const M2 := Policy(75.0, 50.0, 2, 3)

  datatype Action = Join | Keep | Exit | Watch | Exclude

  datatype Advised = Advised(action: Action, score: Option<real>, confidence: Confidence)

  predicate ValidPolicy(p: Policy) { ValidScore(p.join) && ValidScore(p.exit) && p.join > p.exit && p.required > 0 }

  datatype Streak = Streak(join: nat, exit: nat)

  function ForMember(score: real, streak: Streak, p: Policy): Action {
    if score >= p.exit then Keep else if streak.exit >= p.required then Exit else Watch
  }

  function ForCandidate(score: real, streak: Streak, p: Policy): Action {
    if score < p.join then Watch else if streak.join >= p.required then Join else Watch
  }

  /** Hard failures decide before any score is looked at, pending gates before the evidence. */
  function Recommend(kind: AutoKind, member: bool, windows: Combined, gates: GateInput, streak: Streak, p: Policy): Option<Advised> {
    var g := EvaluateGates(gates, p.failureLimit);
    if g.None? then None
    else if g.value.Excluded() then Some(Advised(Exclude, None, High))
    else if g.value.pending != [] then Some(Advised(Watch, None, Insufficient))
    else if !ValidPolicy(p) then None
    else if !windows.available || !windows.ready then Some(Advised(Watch, None, windows.confidence))
    else
      var score := Composite(windows.scores, kind);
      if score.None? then None
      else Some(Advised(
        if member then ForMember(score.value, streak, p) else ForCandidate(score.value, streak, p),
        score, windows.confidence))
  }

  /** Exclusion depends on the gates alone, so it is the same for every kind of a score run. */
  lemma ExclusionIsUniform(
    kind: AutoKind, kind': AutoKind, member: bool, member': bool, windows: Combined, gates: GateInput,
    streak: Streak, streak': Streak, p: Policy)
    requires Recommend(kind, member, windows, gates, streak, p).Some? && Recommend(kind', member', windows, gates, streak', p).Some?
    ensures Recommend(kind, member, windows, gates, streak, p).value.action == Exclude <==>
            Recommend(kind', member', windows, gates, streak', p).value.action == Exclude
    ensures Recommend(kind, member, windows, gates, streak, p).value.action == Exclude <==>
            EvaluateGates(gates, p.failureLimit).value.failed != []
  {
  }

  /** All gates, in the order in which they are listed. */
  const GATES := [AuthenticityMismatch, CredentialInvalid, BalanceUnavailable, ConsecutiveFailures, MajorRisk]

  /** The gate has failed. */
  predicate GateFails(input: GateInput, failureLimit: nat, gate: Gate) {
    match gate
    case AuthenticityMismatch => input.authenticity == Inconsistent
    case CredentialInvalid => input.credential == Fail
    case BalanceUnavailable => input.balance == Fail
    case ConsecutiveFailures => input.failures >= failureLimit
    case MajorRisk => input.riskAbsent == Fail
  }

  /** Nothing is known about the gate yet. */
  predicate GatePends(input: GateInput, gate: Gate) {
    match gate
    case AuthenticityMismatch => input.authenticity == AuthPending
    case CredentialInvalid => input.credential == Pending
    case BalanceUnavailable => input.balance == Pending
    case ConsecutiveFailures => false
    case MajorRisk => input.riskAbsent == Pending
  }

  function Failing(input: GateInput, failureLimit: nat): Gate -> bool { (g: Gate) => GateFails(input, failureLimit, g) }

  function Pends(input: GateInput): Gate -> bool { (g: Gate) => GatePends(input, g) }

  /** Exactly the failed gates and exactly the pending ones are listed, each once and in order. */
  predicate GatesListed(wanted: Gate -> bool, listed: seq<Gate>) {
    && (forall g: Gate :: g in listed <==> wanted(g))
    && forall i, j :: 0 <= i < j < |listed| ==> GateIndex(listed[i]) < GateIndex(listed[j])
  }

  function GateIndex(gate: Gate): (k: nat)
    ensures k < 5 && GATES[k] == gate
  {
    match gate
    case AuthenticityMismatch => 0
    case CredentialInvalid => 1
    case BalanceUnavailable => 2
    case ConsecutiveFailures => 3
    case MajorRisk => 4
  }

  /** The wanted gates among the first `n` are listed. */
  ghost predicate ListedSoFar(wanted: Gate -> bool, n: nat, listed: seq<Gate>) {
    && (forall g: Gate :: g in listed <==> wanted(g) && GateIndex(g) < n)
    && forall i, j :: 0 <= i < j < |listed| ==> GateIndex(listed[i]) < GateIndex(listed[j])
  }

  lemma NextGate(wanted: Gate -> bool, gate: Gate, listed: seq<Gate>, more: seq<Gate>)
    requires ListedSoFar(wanted, GateIndex(gate), listed)
    requires more == if wanted(gate) then [gate] else []
    ensures ListedSoFar(wanted, GateIndex(gate) + 1, listed + more)
  {
    forall i | 0 <= i < |listed| ensures GateIndex(listed[i]) < GateIndex(gate) { assert listed[i] in listed; }
    forall g: Gate | GateIndex(g) == GateIndex(gate) ensures g == gate { assert GATES[GateIndex(g)] == g; }
  }

  lemma AllGates(wanted: Gate -> bool, listed: seq<Gate>)
    requires ListedSoFar(wanted, 5, listed)
    ensures GatesListed(wanted, listed)
  {
  }

  lemma FiveGates(wanted: Gate -> bool, a: seq<Gate>, c: seq<Gate>, b: seq<Gate>, f: seq<Gate>, r: seq<Gate>)
    requires a == if wanted(AuthenticityMismatch) then [AuthenticityMismatch] else []
    requires c == if wanted(CredentialInvalid) then [CredentialInvalid] else []
    requires b == if wanted(BalanceUnavailable) then [BalanceUnavailable] else []
    requires f == if wanted(ConsecutiveFailures) then [ConsecutiveFailures] else []
    requires r == if wanted(MajorRisk) then [MajorRisk] else []
    ensures GatesListed(wanted, a + c + b + f + r)
  {
    FirstGates(wanted, a, c, b);
    var three := a + c + b;
    NextGate(wanted, ConsecutiveFailures, three, f);
    NextGate(wanted, MajorRisk, three + f, r);
    AllGates(wanted, three + f + r);
  }

  lemma FirstGates(wanted: Gate -> bool, a: seq<Gate>, c: seq<Gate>, b: seq<Gate>)
    requires a == if wanted(AuthenticityMismatch) then [AuthenticityMismatch] else []
    requires c == if wanted(CredentialInvalid) then [CredentialInvalid] else []
    requires b == if wanted(BalanceUnavailable) then [BalanceUnavailable] else []
    ensures ListedSoFar(wanted, 3, a + c + b)
  {
    NextGate(wanted, AuthenticityMismatch, [], a);
    assert [] + a == a;
    NextGate(wanted, CredentialInvalid, a, c);
    NextGate(wanted, BalanceUnavailable, a + c, b);
  }

  lemma GatesExactly(input: GateInput, failureLimit: nat)
    ensures EvaluateGates(input, failureLimit).Some? <==> failureLimit > 0
    ensures failureLimit > 0 ==>
              && GatesListed(Failing(input, failureLimit), EvaluateGates(input, failureLimit).value.failed)
              && GatesListed(Pends(input), EvaluateGates(input, failureLimit).value.pending)
  {
    if failureLimit > 0 {
      FailedGates(input, failureLimit);
      PendingGates(input, failureLimit);
    }
  }

  function One(on: bool, gate: Gate): seq<Gate> { if on then [gate] else [] }

  lemma FailedGates(input: GateInput, failureLimit: nat)
    requires failureLimit > 0
    ensures GatesListed(Failing(input, failureLimit), EvaluateGates(input, failureLimit).value.failed)
  {
    var wanted := Failing(input, failureLimit);
    var a, c := One(input.authenticity == Inconsistent, AuthenticityMismatch), One(input.credential == Fail, CredentialInvalid);
    var b, f := One(input.balance == Fail, BalanceUnavailable), One(input.failures >= failureLimit, ConsecutiveFailures);
    var r := One(input.riskAbsent == Fail, MajorRisk);
    FailedIs(input, failureLimit, a, c, b, f, r);
    FiveGates(wanted, a, c, b, f, r);
  }

  lemma FailedIs(input: GateInput, failureLimit: nat, a: seq<Gate>, c: seq<Gate>, b: seq<Gate>, f: seq<Gate>, r: seq<Gate>)
    requires failureLimit > 0
    requires a == One(input.authenticity == Inconsistent, AuthenticityMismatch) && c == One(input.credential == Fail, CredentialInvalid)
    requires b == One(input.balance == Fail, BalanceUnavailable) && f == One(input.failures >= failureLimit, ConsecutiveFailures)
    requires r == One(input.riskAbsent == Fail, MajorRisk)
    ensures EvaluateGates(input, failureLimit).value.failed == a + c + b + f + r
  {
  }

  lemma PendingGates(input: GateInput, failureLimit: nat)
    requires failureLimit > 0
    ensures GatesListed(Pends(input), EvaluateGates(input, failureLimit).value.pending)
  {
    var wanted := Pends(input);
    var a, c := One(input.authenticity == AuthPending, AuthenticityMismatch), One(input.credential == Pending, CredentialInvalid);
    var b, r := One(input.balance == Pending, BalanceUnavailable), One(input.riskAbsent == Pending, MajorRisk);
    FiveGates(wanted, a, c, b, [], r);
    assert a + c + b + [] + r == a + c + b + r;
  }

  lemma GatesEmpty(input: GateInput, failureLimit: nat)
    requires failureLimit > 0
    ensures EvaluateGates(input, failureLimit).value.failed != [] <==> exists g: Gate :: GateFails(input, failureLimit, g)
    ensures EvaluateGates(input, failureLimit).value.pending != [] <==> exists g: Gate :: GatePends(input, g)
  {
    GatesExactly(input, failureLimit);
    var r := EvaluateGates(input, failureLimit).value;
    if r.failed != [] { assert r.failed[0] in r.failed && GateFails(input, failureLimit, r.failed[0]); }
    if r.pending != [] { assert r.pending[0] in r.pending && GatePends(input, r.pending[0]); }
    if g: Gate :| GateFails(input, failureLimit, g) { assert g in r.failed; }
    if g: Gate :| GatePends(input, g) { assert g in r.pending; }
  }

  /** The advice in every case, by gates, score and streak. */
  predicate RecommendSays(
    member: bool, windows: Combined, gates: GateInput, score: real, streak: Streak, p: Policy, a: Advised)
  {
    if exists g: Gate :: GateFails(gates, p.failureLimit, g) then a == Advised(Exclude, None, High)
    else if exists g: Gate :: GatePends(gates, g) then a == Advised(Watch, None, Insufficient)
    else if !windows.available || !windows.ready then a == Advised(Watch, None, windows.confidence)
    else
      && a.score == Some(score) && a.confidence == windows.confidence
      && (a.action == Keep <==> member && score >= p.exit)
      && (a.action == Exit <==> member && score < p.exit && streak.exit >= p.required)
      && (a.action == Join <==> !member && score >= p.join && streak.join >= p.required)
      && (a.action == Watch <==>
            if member then score < p.exit && streak.exit < p.required else score < p.join || streak.join < p.required)
  }

  lemma RecommendExactly(kind: AutoKind, member: bool, windows: Combined, gates: GateInput, streak: Streak, p: Policy)
    requires ValidPolicy(p) && p.failureLimit > 0 && ValidScores(windows.scores)
    ensures Recommend(kind, member, windows, gates, streak, p).Some? && Composite(windows.scores, kind).Some?
    ensures RecommendSays(
              member, windows, gates, Composite(windows.scores, kind).value, streak, p,
              Recommend(kind, member, windows, gates, streak, p).value)
  {
    CompositeDefined(windows.scores, kind);
    GatesEmpty(gates, p.failureLimit);
  }

  // ---------- streaks ----------

  const MAXIMUM_GAP := 600

  /** What the previous score run recorded for the supplier, model and kind. */
  datatype Previous = Previous(at: int, confidence: Confidence, score: Option<real>)

  /** How many adjacent runs, this one included, were past each threshold. */
  function StreakOf(kind: AutoKind, windows: Combined, previous: Option<Previous>, now: int, p: Policy): Option<Streak> {
    if !windows.available then Some(Streak(0, 0))
    else
      var current := Composite(windows.scores, kind);
      if current.None? then None
      else
        var join, exit := if current.value >= p.join then 1 else 0, if current.value < p.exit then 1 else 0;
        if previous.None? || previous.value.at < now - MAXIMUM_GAP || Rank(previous.value.confidence) < 2 || previous.value.score.None? then
          Some(Streak(join, exit))
        else
          Some(Streak(
            if join == 1 && previous.value.score.value >= p.join then 2 else join,
            if exit == 1 && previous.value.score.value < p.exit then 2 else exit))
  }

  /** One supplier and model in one score run: everything its advice is made from. */
  datatype Scored = Scored(windows: Combined, gates: GateInput, previous: Option<Previous>, at: int)

  function AdviceFor(kind: AutoKind, member: bool, s: Scored, p: Policy): Option<Advised> {
    var streak := StreakOf(kind, s.windows, s.previous, s.at, p);
    if streak.None? then None else Recommend(kind, member, s.windows, s.gates, streak.value, p)
  }

  /** The record the next run finds. */
  function Recorded(a: Advised, at: int): Previous { Previous(at, a.confidence, a.score) }

  /** Advice to join needs this score and the previous one at the joining line. */
  lemma JoinNeedsTwo(kind: AutoKind, member: bool, s: Scored)
    requires AdviceFor(kind, member, s, M2).Some? && AdviceFor(kind, member, s, M2).value.action == Join
    ensures !member
    ensures var a := AdviceFor(kind, member, s, M2).value; a.score.Some? && a.score.value >= 75.0
    ensures s.previous.Some? && s.previous.value.score.Some? && s.previous.value.score.value >= 75.0
    ensures s.previous.value.at >= s.at - MAXIMUM_GAP && Rank(s.previous.value.confidence) >= 2
  {
  }

  /** Advice to leave needs this score and the previous one below the leaving line. */
  lemma ExitNeedsTwo(kind: AutoKind, member: bool, s: Scored)
    requires AdviceFor(kind, member, s, M2).Some? && AdviceFor(kind, member, s, M2).value.action == Exit
    ensures member
    ensures var a := AdviceFor(kind, member, s, M2).value; a.score.Some? && a.score.value < 50.0
    ensures s.previous.Some? && s.previous.value.score.Some? && s.previous.value.score.value < 50.0
    ensures s.previous.value.at >= s.at - MAXIMUM_GAP && Rank(s.previous.value.confidence) >= 2
  {
  }

  /** For one model, joining and leaving advice never follow each other directly. */
  lemma NoFlip(kind: AutoKind, first: Scored, second: Scored, member: bool, member': bool)
    requires AdviceFor(kind, member, first, M2).Some? && AdviceFor(kind, member', second, M2).Some?
    requires second.previous == Some(Recorded(AdviceFor(kind, member, first, M2).value, first.at))
    ensures AdviceFor(kind, member, first, M2).value.action == Join ==> AdviceFor(kind, member', second, M2).value.action != Exit
    ensures AdviceFor(kind, member, first, M2).value.action == Exit ==> AdviceFor(kind, member', second, M2).value.action != Join
  {
    var a, b := AdviceFor(kind, member, first, M2).value, AdviceFor(kind, member', second, M2).value;
    if a.action == Join { JoinNeedsTwo(kind, member, first); }
    if a.action == Exit { ExitNeedsTwo(kind, member, first); }
    if b.action == Join { JoinNeedsTwo(kind, member', second); }
    if b.action == Exit { ExitNeedsTwo(kind, member', second); }
  }

  // ---------- the advice of a score run, spelled out ----------

  /** The previous run is at most ten minutes back and its score is to be relied on. */
  predicate Relied(previous: Option<Previous>, now: int) {
    && previous.Some? && now - previous.value.at <= 600
    && previous.value.confidence in {Medium, High} && previous.value.score.Some?
  }

  /** No gate fails or is pending, and the windows give a score to decide on. */
  predicate Judgeable(s: Scored) {
    && !(exists g: Gate :: GateFails(s.gates, 3, g)) && !(exists g: Gate :: GatePends(s.gates, g))
    && s.windows.available && s.windows.ready
  }

  /**
   Joining takes 75 points now and in the previous run, leaving fewer than 50 both times;
   a member with at least 50 points is kept.
   */
  predicate AdviceSays(member: bool, s: Scored, score: real, a: Advised) {
    && (a.action == Exclude <==> exists g: Gate :: GateFails(s.gates, 3, g))
    && (a.action == Join <==>
          && Judgeable(s) && !member && score >= 75.0
          && Relied(s.previous, s.at) && s.previous.value.score.value >= 75.0)
    && (a.action == Exit <==>
          && Judgeable(s) && member && score < 50.0
          && Relied(s.previous, s.at) && s.previous.value.score.value < 50.0)
    && (a.action == Keep <==> Judgeable(s) && member && score >= 50.0)
    && (a.score == if Judgeable(s) then Some(score) else None)
  }

  lemma StreakExactly(kind: AutoKind, s: Scored)
    requires ValidScores(s.windows.scores)
    ensures StreakOf(kind, s.windows, s.previous, s.at, M2).Some? && Composite(s.windows.scores, kind).Some?
    ensures var streak, score := StreakOf(kind, s.windows, s.previous, s.at, M2).value, Composite(s.windows.scores, kind).value;
            && (streak.join >= 2 <==>
                  s.windows.available && score >= 75.0 && Relied(s.previous, s.at) && s.previous.value.score.value >= 75.0)
            && (streak.exit >= 2 <==>
                  s.windows.available && score < 50.0 && Relied(s.previous, s.at) && s.previous.value.score.value < 50.0)
  {
    CompositeDefined(s.windows.scores, kind);
  }

  /** The advice of a score run in every case; scores that windows give always lead to one. */
  lemma AdviceExactly(kind: AutoKind, member: bool, s: Scored)
    requires ValidScores(s.windows.scores)
    ensures AdviceFor(kind, member, s, M2).Some? && Composite(s.windows.scores, kind).Some?
    ensures AdviceSays(member, s, Composite(s.windows.scores, kind).value, AdviceFor(kind, member, s, M2).value)
  {
    StreakExactly(kind, s);
    var streak := StreakOf(kind, s.windows, s.previous, s.at, M2).value;
    RecommendExactly(kind, member, s.windows, s.gates, streak, M2);
  }
}
