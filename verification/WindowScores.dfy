/** Combining the scores of the 15-minute, 1-hour and 24-hour windows. */
module WindowScores {
  import opened Wrappers
  import opened Sequences
  import opened Scoring

  datatype Window = Quarter | Hour | Day | UnknownWindow

  datatype Scores = Scores(price: real, latency: real, sla: real, quality: real)

  datatype Input = Input(window: Window, complete: bool, scores: Scores, evidence: Evidence)

  datatype Usable = Usable(window: Window, weight: real, scores: Scores, assessment: Assessment)

  /** `weights` are the effective ones, in the order of the configured windows. */
  datatype Combined = Combined(
    available: bool, scores: Scores, weights: seq<(Window, real)>, confidence: Confidence, ready: bool)

  const CONFIGURED := [(Quarter, 0.5), (Hour, 0.3), (Day, 0.2)]
  const NO_SCORES := Scores(0.0, 0.0, 0.0, 0.0)

  predicate ValidScore(x: real) { 0.0 <= x <= 100.0 }

  predicate ValidScores(s: Scores) { ValidScore(s.price) && ValidScore(s.latency) && ValidScore(s.sla) && ValidScore(s.quality) }

  predicate WindowsDistinct(inputs: seq<Input>) {
    && (forall i :: 0 <= i < |inputs| ==> !inputs[i].window.UnknownWindow?)
    && forall i, j :: 0 <= i < j < |inputs| ==> inputs[i].window != inputs[j].window
  }

  function Lookup(inputs: seq<Input>, w: Window): (r: Option<Input>)
    ensures r.Some? ==> r.value in inputs && r.value.window == w
    ensures r.None? ==> forall i :: 0 <= i < |inputs| ==> inputs[i].window != w
  {
    if inputs == [] then None
    else if inputs[|inputs| - 1].window == w then Some(inputs[|inputs| - 1])
    else Lookup(inputs[..|inputs| - 1], w)
  }

  function At(inputs: seq<Input>, i: nat): Option<Input>
    requires i < 3
  {
    Lookup(inputs, CONFIGURED[i].0)
  }

  /** What one configured window contributes. */
  datatype Part = Missing | Refused | Unusable | Present(usable: Usable)

  predicate Sound(u: Usable) { u.weight > 0.0 && ValidScores(u.scores) }

  predicate SoundPart(p: Part) { p.Present? ==> Sound(p.usable) }

  function PartAt(inputs: seq<Input>, i: nat): (p: Part)
    requires i < 3
    ensures SoundPart(p)
  {
    var input := At(inputs, i);
    if input.None? then Missing
    else
      var a := Assess(input.value.evidence);
      if a.None? then Refused
      else if !input.value.complete || !a.value.usable then Unusable
      else if !ValidScores(input.value.scores) then Refused
      else Present(Usable(input.value.window, CONFIGURED[i].1, input.value.scores, a.value))
  }

  function Parts(inputs: seq<Input>): (ps: seq<Part>)
    ensures |ps| == 3 && forall i :: 0 <= i < 3 ==> SoundPart(ps[i]) && ps[i] == PartAt(inputs, i)
  {
    [PartAt(inputs, 0), PartAt(inputs, 1), PartAt(inputs, 2)]
  }

  predicate AllSound(us: seq<Usable>) { forall k :: 0 <= k < |us| ==> Sound(us[k]) }

  /** The usable windows among the parts, in order. */
  function Usables(parts: seq<Part>): (us: seq<Usable>)
    requires forall i :: 0 <= i < |parts| ==> SoundPart(parts[i])
    ensures |us| <= |parts| && AllSound(us)
  {
    if parts == [] then []
    else
      var before, part := Usables(parts[..|parts| - 1]), parts[|parts| - 1];
      assert SoundPart(part);
      if part.Present? then before + [part.usable] else before
  }

  function Weights(us: seq<Usable>): (ws: seq<real>)
    ensures |ws| == |us|
  {
    seq(|us|, k requires 0 <= k < |us| => us[k].weight)
  }

  function Scale(ws: seq<real>, total: real): (r: seq<real>)
    requires total != 0.0
    ensures |r| == |ws|
  {
    seq(|ws|, k requires 0 <= k < |ws| => ws[k] / total)
  }

  function Column(us: seq<Usable>, f: Scores -> real): (xs: seq<real>)
    ensures |xs| == |us|
  {
    seq(|us|, k requires 0 <= k < |us| => f(us[k].scores))
  }

  lemma {:induction false} PositiveTotal(ws: seq<real>)
    requires ws != [] && forall k :: 0 <= k < |ws| ==> ws[k] > 0.0
    ensures Total(ws) > 0.0
  {
    if |ws| > 1 {
      PositiveTotal(ws[..|ws| - 1]);
    } else {
      assert ws[..0] == [];
    }
  }

  function Effective(us: seq<Usable>): (ws: seq<real>)
    requires us != [] && AllSound(us)
    ensures |ws| == |us|
  {
    PositiveTotal(Weights(us));
    Scale(Weights(us), Total(Weights(us)))
  }

  function Average(us: seq<Usable>, f: Scores -> real): real
    requires us != [] && AllSound(us)
  {
    Clamp(Weighted(Column(us, f), Effective(us)))
  }

  const PRICE: Scores -> real := (s: Scores) => s.price
  const LATENCY: Scores -> real := (s: Scores) => s.latency
  const SLA: Scores -> real := (s: Scores) => s.sla
  const QUALITY: Scores -> real := (s: Scores) => s.quality

  function LowestOf(us: seq<Usable>): (r: nat)
    ensures r <= 3
  {
    if us == [] then 3
    else
      var before, last := LowestOf(us[..|us| - 1]), Rank(us[|us| - 1].assessment.confidence);
      if last < before then last else before
  }

  predicate AllReady(us: seq<Usable>) { forall k :: 0 <= k < |us| ==> us[k].assessment.ready }

  /** Windows with their effective weights. */
  function Labelled(us: seq<Usable>): (r: seq<(Window, real)>)
    requires us != [] && AllSound(us)
    ensures |r| == |us|
  {
    seq(|us|, k requires 0 <= k < |us| => (us[k].window, Effective(us)[k]))
  }

  function AverageScores(us: seq<Usable>): Scores
    requires us != [] && AllSound(us)
  {
    Scores(Average(us, PRICE), Average(us, LATENCY), Average(us, SLA), Average(us, QUALITY))
  }

  function ConfidenceOf(us: seq<Usable>): Confidence { FromRank(LowestOf(us) - (3 - |us|)) }

  predicate ReadyOf(us: seq<Usable>) { |us| == 3 && AllReady(us) && Rank(ConfidenceOf(us)) >= 2 }

  function CombineUsable(us: seq<Usable>): Combined
    requires AllSound(us)
  {
    if us == [] then Combined(false, NO_SCORES, [], Insufficient, false)
    else Combined(true, AverageScores(us), Labelled(us), ConfidenceOf(us), ReadyOf(us))
  }

  /** Absent when a window is unknown or repeated, or its evidence or scores are invalid. */
  function Combine(inputs: seq<Input>): Option<Combined> {
    if !WindowsDistinct(inputs) then None
    else if Refused in Parts(inputs) then None
    else Some(CombineUsable(Usables(Parts(inputs))))
  }

  // ---------- weights ----------

  lemma QuotientSum(a: real, b: real, d: real)
    requires d != 0.0
    ensures a / d + b / d == (a + b) / d
  {
  }

  lemma {:induction false} ScaledTotal(ws: seq<real>, total: real)
    requires total != 0.0
    ensures Total(Scale(ws, total)) == Total(ws) / total
  {
    if ws != [] {
      var n := |ws| - 1;
      ScaledTotal(ws[..n], total);
      assert Scale(ws, total)[..n] == Scale(ws[..n], total);
      QuotientSum(Total(ws[..n]), ws[n], total);
    }
  }

  /** The weights of the missing windows are given to the usable ones: effective weights sum to 1. */
  lemma EffectiveWeightsSumToOne(us: seq<Usable>)
    requires us != [] && AllSound(us)
    ensures Total(Effective(us)) == 1.0 && NonNegative(Effective(us))
  {
    var total := Total(Weights(us));
    PositiveTotal(Weights(us));
    ScaledTotal(Weights(us), total);
    SelfQuotient(total);
    forall k | 0 <= k < |us| ensures Effective(us)[k] >= 0.0 { Quotient(us[k].weight, Total(Weights(us))); }
  }

  lemma SelfQuotient(a: real)
    requires a > 0.0
    ensures a / a == 1.0
  {
  }

  lemma Quotient(a: real, b: real)
    requires a > 0.0 && b > 0.0
    ensures a / b > 0.0
  {
  }

  /** Each combined score lies between the lowest and the highest score of the usable windows. */
  lemma AverageWithin(us: seq<Usable>, f: Scores -> real, lo: real, hi: real)
    requires us != [] && AllSound(us)
    requires 0.0 <= lo && hi <= 100.0 && Between(Column(us, f), lo, hi)
    ensures lo <= Average(us, f) <= hi
  {
    EffectiveWeightsSumToOne(us);
    WeightedBounds(Column(us, f), Effective(us), lo, hi);
  }

  // ---------- decision readiness ----------

  lemma {:induction false} UsablesCount(parts: seq<Part>)
    requires forall i :: 0 <= i < |parts| ==> SoundPart(parts[i])
    ensures |Usables(parts)| == |parts| <==> forall i :: 0 <= i < |parts| ==> parts[i].Present?
    ensures |Usables(parts)| == |parts| ==> forall i :: 0 <= i < |parts| ==> Usables(parts)[i] == parts[i].usable
  {
    if parts != [] {
      UsablesCount(parts[..|parts| - 1]);
      assert parts == parts[..|parts| - 1] + [parts[|parts| - 1]];
    }
  }

  lemma {:induction false} ReadyRanks(us: seq<Usable>)
    requires AllReady(us) && forall k :: 0 <= k < |us| ==> Rank(us[k].assessment.confidence) >= 2
    ensures LowestOf(us) >= 2
  {
    if us != [] { ReadyRanks(us[..|us| - 1]); }
  }

  lemma ReadyMeansMedium(e: Evidence)
    requires Assess(e).Some? && Assess(e).value.ready
    ensures Rank(Assess(e).value.confidence) >= 2
  {
    LowestRankExact(e.factors, 2);
  }

  /** The configured window is there, complete, and ready by itself. */
  predicate ReadyAt(inputs: seq<Input>, i: nat)
    requires i < 3
  {
    At(inputs, i).Some? && At(inputs, i).value.complete
    && Assess(At(inputs, i).value.evidence).Some? && Assess(At(inputs, i).value.evidence).value.ready
  }

  /** A part by itself ready for decisions. */
  predicate ReadyPart(p: Part) { p.Present? && p.usable.assessment.ready }

  lemma ReadyPartAt(inputs: seq<Input>, i: nat)
    requires i < 3 && !PartAt(inputs, i).Refused?
    ensures ReadyPart(PartAt(inputs, i)) <==> ReadyAt(inputs, i)
    ensures ReadyPart(PartAt(inputs, i)) ==> Rank(PartAt(inputs, i).usable.assessment.confidence) >= 2
  {
    if ReadyAt(inputs, i) { ReadyMeansMedium(At(inputs, i).value.evidence); }
  }

  lemma ReadyParts(parts: seq<Part>)
    requires |parts| == 3 && forall i :: 0 <= i < 3 ==> SoundPart(parts[i])
    requires forall i :: 0 <= i < 3 ==> ReadyPart(parts[i]) ==> Rank(parts[i].usable.assessment.confidence) >= 2
    ensures ReadyOf(Usables(parts)) <==> forall i :: 0 <= i < 3 ==> ReadyPart(parts[i])
  {
    var us := Usables(parts);
    UsablesCount(parts);
    if forall i :: 0 <= i < 3 ==> ReadyPart(parts[i]) {
      forall k | 0 <= k < |us| ensures us[k].assessment.ready && Rank(us[k].assessment.confidence) >= 2 {
        assert ReadyPart(parts[k]);
      }
      ReadyRanks(us);
    }
    if ReadyOf(us) {
      forall i | 0 <= i < 3 ensures ReadyPart(parts[i]) { assert us[i].assessment.ready; }
    }
  }

  /** A combination is ready for decisions exactly when all three windows are present, complete and ready. */
  lemma DecisionReadyExactly(inputs: seq<Input>)
    requires Combine(inputs).Some?
    ensures Combine(inputs).value.ready <==> forall i: nat :: i < 3 ==> ReadyAt(inputs, i)
  {
    var parts := Parts(inputs);
    forall i: nat | i < 3 ensures (ReadyPart(parts[i]) <==> ReadyAt(inputs, i)) &&
                                 (ReadyPart(parts[i]) ==> Rank(parts[i].usable.assessment.confidence) >= 2)
    {
      assert parts[i] != Refused;
      ReadyPartAt(inputs, i);
    }
    ReadyParts(parts);
  }

  // ---------- composite scores ----------

  datatype AutoKind = LowestPrice | LowLatency | HighSla | HighQuality | Balanced

  function KindWeights(kind: AutoKind): Scores {
    match kind
    case LowestPrice => Scores(0.55, 0.15, 0.15, 0.15)
    case LowLatency => Scores(0.15, 0.55, 0.20, 0.10)
    case HighSla => Scores(0.10, 0.20, 0.60, 0.10)
    case HighQuality => Scores(0.10, 0.15, 0.15, 0.60)
    case Balanced => Scores(0.25, 0.25, 0.30, 0.20)
  }

  function Listed(s: Scores): seq<real> { [s.price, s.latency, s.sla, s.quality] }

  function Composite(s: Scores, kind: AutoKind): Option<real> {
    if !ValidScores(s) || !ValidWeights(Listed(KindWeights(kind))) then None
    else Some(Clamp(Weighted(Listed(s), Listed(KindWeights(kind)))))
  }

  lemma TotalOfFour(a: real, b: real, c: real, d: real)
    ensures Total([a, b, c, d]) == a + b + c + d
  {
    TotalSnoc([a, b, c], d);
    TotalSnoc([a, b], c);
    TotalSnoc([a], b);
    TotalSnoc([], a);
    assert [a, b, c, d] == [a, b, c] + [d] && [a, b, c] == [a, b] + [c] && [a, b] == [a] + [b] && [a] == [] + [a];
  }

  /** The fixed weights of every kind are valid, so valid scores always have a composite. */
  lemma CompositeDefined(s: Scores, kind: AutoKind)
    requires ValidScores(s)
    ensures Composite(s, kind).Some? && ValidScore(Composite(s, kind).value)
    ensures Total(Listed(KindWeights(kind))) == 1.0
  {
    var w := KindWeights(kind);
    TotalOfFour(w.price, w.latency, w.sla, w.quality);
  }

  /** The composite of every kind, spelled out. */
  lemma CompositeExactly(s: Scores, kind: AutoKind)
    ensures Composite(s, kind).Some? <==>
            0.0 <= s.price <= 100.0 && 0.0 <= s.latency <= 100.0 && 0.0 <= s.sla <= 100.0 && 0.0 <= s.quality <= 100.0
    ensures Composite(s, kind).Some? ==>
              Composite(s, kind).value ==
              match kind
              case LowestPrice => 0.55 * s.price + 0.15 * s.latency + 0.15 * s.sla + 0.15 * s.quality
              case LowLatency => 0.15 * s.price + 0.55 * s.latency + 0.20 * s.sla + 0.10 * s.quality
              case HighSla => 0.10 * s.price + 0.20 * s.latency + 0.60 * s.sla + 0.10 * s.quality
              case HighQuality => 0.10 * s.price + 0.15 * s.latency + 0.15 * s.sla + 0.60 * s.quality
              case Balanced => 0.25 * s.price + 0.25 * s.latency + 0.30 * s.sla + 0.20 * s.quality
  {
    if ValidScores(s) {
      CompositeDefined(s, kind);
      var w := KindWeights(kind);
      WeightedOfFour(s, w);
      WeightedBounds(Listed(s), Listed(w), 0.0, 100.0);
    }
  }

  lemma WeightedOfFour(s: Scores, w: Scores)
    ensures Weighted(Listed(s), Listed(w)) == s.price * w.price + s.latency * w.latency + s.sla * w.sla + s.quality * w.quality
  {
    var p := Products(Listed(s), Listed(w));
    TotalOfFour(p[0], p[1], p[2], p[3]);
    assert p == [p[0], p[1], p[2], p[3]];
  }

  predicate NoLower(a: Scores, b: Scores) {
    a.price >= b.price && a.latency >= b.latency && a.sla >= b.sla && a.quality >= b.quality
  }

  /** Both composites exist and the first is no lower. */
  predicate CompositeNoLower(a: Scores, b: Scores, kind: AutoKind) {
    var x, y := Composite(a, kind), Composite(b, kind);
    x.Some? && y.Some? && y.value <= x.value
  }

  lemma CompositeMonotone(a: Scores, b: Scores, kind: AutoKind)
    requires ValidScores(a) && ValidScores(b) && NoLower(a, b)
    ensures CompositeNoLower(a, b, kind)
  {
    CompositeDefined(a, kind);
    CompositeDefined(b, kind);
    var w := Listed(KindWeights(kind));
    WeightedMonotone(Listed(b), Listed(a), w);
    ClampMonotone(Weighted(Listed(b), w), Weighted(Listed(a), w));
  }

  /** The same windows with the same evidence; every score at least as high. */
  predicate Improved(a: seq<Usable>, b: seq<Usable>) {
    |a| == |b| && forall k :: 0 <= k < |a| ==>
      && a[k].window == b[k].window && a[k].weight == b[k].weight && a[k].assessment == b[k].assessment
      && NoLower(a[k].scores, b[k].scores)
  }

  lemma AverageMonotone(a: seq<Usable>, b: seq<Usable>, f: Scores -> real)
    requires a != [] && Improved(a, b) && AllSound(a) && AllSound(b)
    requires forall k :: 0 <= k < |a| ==> f(b[k].scores) <= f(a[k].scores)
    ensures Average(b, f) <= Average(a, f)
  {
    assert Weights(a) == Weights(b);
    EffectiveWeightsSumToOne(a);
    WeightedMonotone(Column(b, f), Column(a, f), Effective(a));
    ClampMonotone(Weighted(Column(b, f), Effective(b)), Weighted(Column(a, f), Effective(a)));
  }

  /** For fixed usable windows, better dimension scores never lower any composite. */
  lemma CombinedMonotone(a: seq<Usable>, b: seq<Usable>, kind: AutoKind)
    requires a != [] && Improved(a, b) && AllSound(a) && AllSound(b)
    ensures CompositeNoLower(CombineUsable(a).scores, CombineUsable(b).scores, kind)
  {
    AverageMonotone(a, b, PRICE);
    AverageMonotone(a, b, LATENCY);
    AverageMonotone(a, b, SLA);
    AverageMonotone(a, b, QUALITY);
    CompositeMonotone(CombineUsable(a).scores, CombineUsable(b).scores, kind);
  }

  // ---------- the combination, spelled out ----------

  /** The input of the window counts: it is complete and its evidence usable. */
  ghost predicate Counts(inputs: seq<Input>, w: Window) {
    exists input <- inputs :: input.window == w && input.complete && Assess(input.evidence).Some? && Assess(input.evidence).value.usable
  }

  /** The weight of a window that counts. */
  ghost function Share(inputs: seq<Input>, w: Window): real {
    if !Counts(inputs, w) then 0.0
    else match w case Quarter => 0.5 case Hour => 0.3 case Day => 0.2 case UnknownWindow => 0.0
  }

  /** The score of a window that counts. */
  ghost function Shown(inputs: seq<Input>, w: Window, f: Scores -> real): real {
    if Lookup(inputs, w).Some? then f(Lookup(inputs, w).value.scores) else 0.0
  }

  ghost function AllShares(inputs: seq<Input>): real { Share(inputs, Quarter) + Share(inputs, Hour) + Share(inputs, Day) }

  /** The average of one score over the windows that count: half for 15 minutes, then 3 to 2, in proportion. */
  ghost predicate AverageSays(inputs: seq<Input>, f: Scores -> real, x: real) {
    Balanced(x, AllShares(inputs), Contributed(inputs, Quarter, f) + Contributed(inputs, Hour, f) + Contributed(inputs, Day, f))
  }

  /** The quotient of the sum and the weight, without dividing. */
  predicate Balanced(x: real, weight: real, sum: real) { x * weight == sum }

  ghost function Contributed(inputs: seq<Input>, w: Window, f: Scores -> real): real {
    Share(inputs, w) * Shown(inputs, w, f)
  }

  /** No window twice or unknown, no invalid evidence, no invalid score in a window that counts. */
  ghost predicate InputsValid(inputs: seq<Input>) {
    && (forall input <- inputs :: input.window != UnknownWindow && EvidenceValid(input.evidence))
    && (forall i, j :: 0 <= i < j < |inputs| ==> inputs[i].window != inputs[j].window)
    && forall input <- inputs :: Counts(inputs, input.window) ==>
         && 0.0 <= input.scores.price <= 100.0 && 0.0 <= input.scores.latency <= 100.0
         && 0.0 <= input.scores.sla <= 100.0 && 0.0 <= input.scores.quality <= 100.0
  }

  ghost function Uncounted(inputs: seq<Input>): nat {
    (if Counts(inputs, Quarter) then 0 else 1) + (if Counts(inputs, Hour) then 0 else 1) + (if Counts(inputs, Day) then 0 else 1)
  }

  /** The confidence reaches a level exactly when every window that counts is above it by one level for each that does not. */
  ghost predicate ConfidenceSays(inputs: seq<Input>, c: Confidence) {
    ReachesLevel(inputs, c, 1) && ReachesLevel(inputs, c, 2) && ReachesLevel(inputs, c, 3)
  }

  ghost predicate ReachesLevel(inputs: seq<Input>, c: Confidence, rank: nat) {
    Rank(c) >= rank <==> rank + Uncounted(inputs) <= 3 && RanksAbove(inputs, rank + Uncounted(inputs))
  }

  ghost predicate RanksAbove(inputs: seq<Input>, rank: nat) {
    forall input <- inputs :: Counts(inputs, input.window) && Assess(input.evidence).Some? ==>
      Rank(Assess(input.evidence).value.confidence) >= rank
  }

  ghost predicate CombinedSays(inputs: seq<Input>, c: Combined) {
    && (c.available <==> Counts(inputs, Quarter) || Counts(inputs, Hour) || Counts(inputs, Day))
    && (!c.available ==> c == Combined(false, Scores(0.0, 0.0, 0.0, 0.0), [], Insufficient, false))
    && (c.available ==>
          && AverageSays(inputs, (s: Scores) => s.price, c.scores.price)
          && AverageSays(inputs, (s: Scores) => s.latency, c.scores.latency)
          && AverageSays(inputs, (s: Scores) => s.sla, c.scores.sla)
          && AverageSays(inputs, (s: Scores) => s.quality, c.scores.quality)
          && ConfidenceSays(inputs, c.confidence) && WeightsSay(inputs, c.weights))
    && (c.ready <==> ReadyIn(inputs, Quarter) && ReadyIn(inputs, Hour) && ReadyIn(inputs, Day))
  }

  /** The window is there, complete, and its evidence ready for decisions. */
  ghost predicate ReadyIn(inputs: seq<Input>, w: Window) {
    exists input <- inputs :: input.window == w && input.complete && Assess(input.evidence).Some? && Assess(input.evidence).value.ready
  }

  /** Every window that counts is listed with its share of the weights that count. */
  ghost predicate WeightsSay(inputs: seq<Input>, weights: seq<(Window, real)>) {
    && |weights| + Uncounted(inputs) == 3
    && (forall i, j :: 0 <= i < j < |weights| ==> weights[i].0 != weights[j].0)
    && forall k :: 0 <= k < |weights| ==> EntrySays(inputs, weights[k])
  }

  ghost predicate EntrySays(inputs: seq<Input>, entry: (Window, real)) {
    Counts(inputs, entry.0) && entry.1 * AllShares(inputs) == Share(inputs, entry.0)
  }

  /** The window a configured position stands for. */
  function WindowAt(i: nat): Window
    requires i < 3
  {
    if i == 0 then Quarter else if i == 1 then Hour else Day
  }

  lemma {:induction false} LookupFinds(inputs: seq<Input>, input: Input)
    requires WindowsDistinct(inputs) && input in inputs
    ensures Lookup(inputs, input.window) == Some(input)
  {
    var n := |inputs| - 1;
    if inputs[n] != input {
      var k :| 0 <= k < n && inputs[k] == input;
      assert inputs[..n][k] == input;
      assert inputs[k].window != inputs[n].window;
      LookupFinds(inputs[..n], input);
    } else {
      assert inputs[n].window == input.window;
    }
  }

  /** A configured window counts exactly when its part is present. */
  lemma PartCounts(inputs: seq<Input>, i: nat)
    requires WindowsDistinct(inputs) && i < 3 && !PartAt(inputs, i).Refused?
    ensures CONFIGURED[i].0 == WindowAt(i)
    ensures Counts(inputs, WindowAt(i)) <==> PartAt(inputs, i).Present?
    ensures PartAt(inputs, i).Present? ==>
              var u := PartAt(inputs, i).usable;
              && Lookup(inputs, WindowAt(i)).Some? && u.scores == Lookup(inputs, WindowAt(i)).value.scores
              && u.weight == Share(inputs, WindowAt(i)) && u.window == WindowAt(i)
              && u.assessment == Assess(Lookup(inputs, WindowAt(i)).value.evidence).value
  {
    if Counts(inputs, WindowAt(i)) {
      var input :| input in inputs && input.window == WindowAt(i) && input.complete && Assess(input.evidence).Some? && Assess(input.evidence).value.usable;
      LookupFinds(inputs, input);
    }
  }

  /** The input would be refused: its evidence is invalid, or it counts with a score out of range. */
  ghost predicate Invalid(inputs: seq<Input>, input: Input) {
    !EvidenceValid(input.evidence) || (Counts(inputs, input.window) && !ValidScores(input.scores))
  }

  ghost predicate InvalidAt(inputs: seq<Input>, w: Window) { exists input <- inputs :: input.window == w && Invalid(inputs, input) }

  lemma RefusedExactly(inputs: seq<Input>)
    requires WindowsDistinct(inputs)
    ensures Refused in Parts(inputs) <==> exists input <- inputs :: Invalid(inputs, input)
  {
    PartRefused(inputs, 0);
    PartRefused(inputs, 1);
    PartRefused(inputs, 2);
    assert Refused in Parts(inputs) <==> Parts(inputs)[0].Refused? || Parts(inputs)[1].Refused? || Parts(inputs)[2].Refused?;
    forall input | input in inputs ensures input.window == Quarter || input.window == Hour || input.window == Day { }
  }

  lemma CombineDefined(inputs: seq<Input>)
    ensures Combine(inputs).Some? <==> InputsValid(inputs)
  {
    forall i | 0 <= i < |inputs| ensures inputs[i] in inputs { }
    if WindowsDistinct(inputs) { RefusedExactly(inputs); }
    ValidInputs(inputs);
  }

  lemma ValidInputs(inputs: seq<Input>)
    ensures InputsValid(inputs) <==> WindowsDistinct(inputs) && forall input <- inputs :: !Invalid(inputs, input)
  {
    forall i | 0 <= i < |inputs| ensures inputs[i] in inputs { }
  }

  lemma PartRefused(inputs: seq<Input>, i: nat)
    requires WindowsDistinct(inputs) && i < 3
    ensures PartAt(inputs, i).Refused? <==> InvalidAt(inputs, WindowAt(i))
  {
    var found := Lookup(inputs, WindowAt(i));
    if found.Some? { AssessExactly(found.value.evidence); }
    forall input | input in inputs && input.window == WindowAt(i) ensures found == Some(input) { LookupFinds(inputs, input); }
  }

  // ---------- the average as a sum over the windows ----------

  function Contribution(part: Part, f: Scores -> real): real {
    if part.Present? then f(part.usable.scores) * part.usable.weight else 0.0
  }

  function WeightOf(part: Part): real { if part.Present? then part.usable.weight else 0.0 }

  function Contributions(parts: seq<Part>, f: Scores -> real): real {
    if parts == [] then 0.0 else Contributions(parts[..|parts| - 1], f) + Contribution(parts[|parts| - 1], f)
  }

  function WeightSum(parts: seq<Part>): real {
    if parts == [] then 0.0 else WeightSum(parts[..|parts| - 1]) + WeightOf(parts[|parts| - 1])
  }

  lemma ColumnSnoc(us: seq<Usable>, u: Usable, f: Scores -> real)
    ensures Column(us + [u], f) == Column(us, f) + [f(u.scores)]
    ensures Weights(us + [u]) == Weights(us) + [u.weight]
    ensures Weighted(Column(us + [u], f), Weights(us + [u])) == Weighted(Column(us, f), Weights(us)) + Times(f(u.scores), u.weight)
    ensures Total(Weights(us + [u])) == Total(Weights(us)) + u.weight
  {
    assert Column(us + [u], f) == Column(us, f) + [f(u.scores)];
    assert Weights(us + [u]) == Weights(us) + [u.weight];
    WeightedSnoc(Column(us, f), Weights(us), f(u.scores), u.weight);
    TotalSnoc(Weights(us), u.weight);
  }

  lemma {:induction false} UsablesSum(parts: seq<Part>, f: Scores -> real)
    requires forall i :: 0 <= i < |parts| ==> SoundPart(parts[i])
    ensures Weighted(Column(Usables(parts), f), Weights(Usables(parts))) == Contributions(parts, f)
    ensures Total(Weights(Usables(parts))) == WeightSum(parts)
  {
    if parts != [] {
      var n := |parts| - 1;
      UsablesSum(parts[..n], f);
      assert SoundPart(parts[n]);
      if parts[n].Present? { ColumnSnoc(Usables(parts[..n]), parts[n].usable, f); }
    }
  }

  lemma SumsOfThree(parts: seq<Part>, f: Scores -> real)
    requires |parts| == 3
    ensures Contributions(parts, f) == Contribution(parts[0], f) + Contribution(parts[1], f) + Contribution(parts[2], f)
    ensures WeightSum(parts) == WeightOf(parts[0]) + WeightOf(parts[1]) + WeightOf(parts[2])
  {
    assert parts[..2][..1] == parts[..1] && parts[..1][..0] == [];
    assert Contributions(parts[..1], f) == Contribution(parts[0], f) && WeightSum(parts[..1]) == WeightOf(parts[0]);
    assert Contributions(parts[..2], f) == Contributions(parts[..1], f) + Contribution(parts[1], f);
    assert WeightSum(parts[..2]) == WeightSum(parts[..1]) + WeightOf(parts[1]);
  }

  lemma {:induction false} WeightedScaled(xs: seq<real>, ws: seq<real>, total: real)
    requires |xs| == |ws| && total != 0.0
    ensures Weighted(xs, Scale(ws, total)) * total == Weighted(xs, ws)
  {
    if xs != [] {
      var n := |xs| - 1;
      WeightedScaled(xs[..n], ws[..n], total);
      var scaled := Scale(ws, total);
      var before := Weighted(xs[..n], Scale(ws[..n], total));
      assert scaled == Scale(ws[..n], total) + [scaled[n]] && xs == xs[..n] + [xs[n]] && ws == ws[..n] + [ws[n]];
      WeightedSnoc(xs[..n], Scale(ws[..n], total), xs[n], scaled[n]);
      WeightedSnoc(xs[..n], ws[..n], xs[n], ws[n]);
      ShareTimes(xs[n], ws[n], scaled[n], total);
      Distributes(before, Times(xs[n], scaled[n]), total);
    }
  }

  lemma Distributes(a: real, b: real, t: real)
    ensures (a + b) * t == a * t + b * t
  {
  }

  lemma ShareTimes(x: real, w: real, share: real, total: real)
    requires total != 0.0 && share == w / total
    ensures Times(x, share) * total == Times(x, w)
  {
    assert share * total == w;
    assert x * share * total == x * (share * total);
  }

  predicate InRange(us: seq<Usable>, f: Scores -> real) { forall k :: 0 <= k < |us| ==> 0.0 <= f(us[k].scores) <= 100.0 }

  lemma AverageUnclamped(us: seq<Usable>, f: Scores -> real)
    requires us != [] && AllSound(us) && InRange(us, f)
    ensures Average(us, f) == Weighted(Column(us, f), Effective(us))
  {
    EffectiveWeightsSumToOne(us);
    WeightedBounds(Column(us, f), Effective(us), 0.0, 100.0);
  }

  lemma AverageScaled(us: seq<Usable>, f: Scores -> real)
    requires us != [] && AllSound(us)
    ensures Weighted(Column(us, f), Effective(us)) * Total(Weights(us)) == Weighted(Column(us, f), Weights(us))
  {
    PositiveTotal(Weights(us));
    WeightedScaled(Column(us, f), Weights(us), Total(Weights(us)));
  }

  /** The average times the weights that count is the sum of what the windows contribute. */
  lemma AverageOfParts(parts: seq<Part>, f: Scores -> real)
    requires |parts| == 3 && forall i :: 0 <= i < 3 ==> SoundPart(parts[i])
    requires Usables(parts) != [] && InRange(Usables(parts), f)
    ensures Balanced(Average(Usables(parts), f), WeightSum(parts), Contributions(parts, f))
  {
    UsablesSum(parts, f);
    AverageUnclamped(Usables(parts), f);
    AverageScaled(Usables(parts), f);
  }

  /** What the parts have to do with the windows. */
  ghost predicate PartsSay(inputs: seq<Input>, parts: seq<Part>, f: Scores -> real)
    requires |parts| == 3
  {
    && WeightOf(parts[0]) == Share(inputs, Quarter) && Contribution(parts[0], f) == Contributed(inputs, Quarter, f)
    && WeightOf(parts[1]) == Share(inputs, Hour) && Contribution(parts[1], f) == Contributed(inputs, Hour, f)
    && WeightOf(parts[2]) == Share(inputs, Day) && Contribution(parts[2], f) == Contributed(inputs, Day, f)
  }

  lemma AverageFromParts(inputs: seq<Input>, parts: seq<Part>, f: Scores -> real)
    requires |parts| == 3 && (forall i :: 0 <= i < 3 ==> SoundPart(parts[i])) && PartsSay(inputs, parts, f)
    requires Usables(parts) != [] && InRange(Usables(parts), f)
    ensures AverageSays(inputs, f, Average(Usables(parts), f))
  {
    AverageOfParts(parts, f);
    PartSums(inputs, parts, f);
  }

  lemma PartSums(inputs: seq<Input>, parts: seq<Part>, f: Scores -> real)
    requires |parts| == 3 && PartsSay(inputs, parts, f)
    ensures WeightSum(parts) == AllShares(inputs)
    ensures Contributions(parts, f) == Contributed(inputs, Quarter, f) + Contributed(inputs, Hour, f) + Contributed(inputs, Day, f)
  {
    SumsOfThree(parts, f);
  }

  lemma PartsExactly(inputs: seq<Input>, f: Scores -> real)
    requires WindowsDistinct(inputs) && Refused !in Parts(inputs)
    ensures PartsSay(inputs, Parts(inputs), f)
  {
    ContributionExactly(inputs, 0, f);
    ContributionExactly(inputs, 1, f);
    ContributionExactly(inputs, 2, f);
  }

  /** One score of the combination, by the windows that count. */
  lemma AverageExactly(inputs: seq<Input>, f: Scores -> real)
    requires WindowsDistinct(inputs) && Refused !in Parts(inputs) && Usables(Parts(inputs)) != []
    requires InRange(Usables(Parts(inputs)), f)
    ensures AverageSays(inputs, f, Average(Usables(Parts(inputs)), f))
  {
    PartsExactly(inputs, f);
    AverageFromParts(inputs, Parts(inputs), f);
  }

  lemma ContributionExactly(inputs: seq<Input>, i: nat, f: Scores -> real)
    requires WindowsDistinct(inputs) && Refused !in Parts(inputs) && i < 3
    ensures WeightOf(Parts(inputs)[i]) == Share(inputs, WindowAt(i))
    ensures Contribution(Parts(inputs)[i], f) == Contributed(inputs, WindowAt(i), f)
  {
    assert Parts(inputs)[i] in Parts(inputs);
    PartCounts(inputs, i);
  }

  lemma {:induction false} LowestExact(us: seq<Usable>, rank: nat)
    requires rank <= 3
    ensures LowestOf(us) >= rank <==> forall k :: 0 <= k < |us| ==> Rank(us[k].assessment.confidence) >= rank
  {
    if us != [] {
      LowestExact(us[..|us| - 1], rank);
      assert us == us[..|us| - 1] + [us[|us| - 1]];
    }
  }

  /** The usable windows are the present parts. */
  lemma {:induction false} UsablesMembers(parts: seq<Part>)
    requires forall i :: 0 <= i < |parts| ==> SoundPart(parts[i])
    ensures forall u :: u in Usables(parts) <==> Present(u) in parts
    ensures |Usables(parts)| == CountPresent(parts)
  {
    if parts != [] {
      var n := |parts| - 1;
      UsablesMembers(parts[..n]);
      assert parts == parts[..n] + [parts[n]];
    }
  }

  function CountPresent(parts: seq<Part>): nat {
    if parts == [] then 0 else CountPresent(parts[..|parts| - 1]) + if parts[|parts| - 1].Present? then 1 else 0
  }

  lemma CountOfThree(parts: seq<Part>)
    requires |parts| == 3
    ensures CountPresent(parts) == (if parts[0].Present? then 1 else 0) + (if parts[1].Present? then 1 else 0) + (if parts[2].Present? then 1 else 0)
  {
    assert parts[..2][..1] == parts[..1] && parts[..1][..0] == [];
    assert CountPresent(parts[..2]) == CountPresent(parts[..1]) + if parts[1].Present? then 1 else 0;
    assert CountPresent(parts[..1]) == if parts[0].Present? then 1 else 0;
  }

  lemma UncountedExactly(inputs: seq<Input>)
    requires WindowsDistinct(inputs) && Refused !in Parts(inputs)
    ensures Uncounted(inputs) == 3 - |Usables(Parts(inputs))|
    ensures Usables(Parts(inputs)) == [] <==> !Counts(inputs, Quarter) && !Counts(inputs, Hour) && !Counts(inputs, Day)
  {
    var parts := Parts(inputs);
    forall i: nat | i < 3 ensures Counts(inputs, WindowAt(i)) <==> parts[i].Present? {
      assert parts[i] in parts;
      PartCounts(inputs, i);
    }
    UsablesMembers(parts);
    CountOfThree(parts);
    assert WindowAt(0) == Quarter && WindowAt(1) == Hour && WindowAt(2) == Day;
  }

  lemma RanksExactly(inputs: seq<Input>, rank: nat)
    requires WindowsDistinct(inputs) && Refused !in Parts(inputs)
    ensures RanksAbove(inputs, rank) <==>
            forall k :: 0 <= k < |Usables(Parts(inputs))| ==> Rank(Usables(Parts(inputs))[k].assessment.confidence) >= rank
  {
    var parts := Parts(inputs);
    var us := Usables(parts);
    UsablesMembers(parts);
    forall i: nat | i < 3
      ensures Counts(inputs, WindowAt(i)) <==> parts[i].Present?
      ensures parts[i].Present? ==>
                Lookup(inputs, WindowAt(i)).Some? && parts[i].usable.assessment == Assess(Lookup(inputs, WindowAt(i)).value.evidence).value
    {
      assert parts[i] in parts;
      PartCounts(inputs, i);
    }
    if RanksAbove(inputs, rank) {
      forall k | 0 <= k < |us| ensures Rank(us[k].assessment.confidence) >= rank {
        assert us[k] in us;
        var i: nat :| i < 3 && parts[i] == Present(us[k]);
        assert Lookup(inputs, WindowAt(i)).value in inputs;
      }
    }
    if forall k :: 0 <= k < |us| ==> Rank(us[k].assessment.confidence) >= rank {
      forall input | input in inputs && Counts(inputs, input.window) && Assess(input.evidence).Some?
        ensures Rank(Assess(input.evidence).value.confidence) >= rank
      {
        LookupFinds(inputs, input);
        var i: nat := if input.window == Quarter then 0 else if input.window == Hour then 1 else 2;
        assert input.window == WindowAt(i);
        assert parts[i] in parts && Present(parts[i].usable) in parts;
        var k :| 0 <= k < |us| && us[k] == parts[i].usable;
      }
    }
  }

  lemma LevelExactly(inputs: seq<Input>, rank: nat)
    requires WindowsDistinct(inputs) && Refused !in Parts(inputs) && 1 <= rank <= 3
    ensures ReachesLevel(inputs, ConfidenceOf(Usables(Parts(inputs))), rank)
  {
    var us := Usables(Parts(inputs));
    UncountedExactly(inputs);
    assert Rank(ConfidenceOf(us)) >= rank <==> LowestOf(us) >= rank + Uncounted(inputs);
    if rank + Uncounted(inputs) <= 3 {
      LowestExact(us, rank + Uncounted(inputs));
      RanksExactly(inputs, rank + Uncounted(inputs));
    }
  }

  lemma ConfidenceExactly(inputs: seq<Input>)
    requires WindowsDistinct(inputs) && Refused !in Parts(inputs)
    ensures ConfidenceSays(inputs, ConfidenceOf(Usables(Parts(inputs))))
  {
    LevelExactly(inputs, 1);
    LevelExactly(inputs, 2);
    LevelExactly(inputs, 3);
  }

  lemma ReadyExactly(inputs: seq<Input>)
    requires WindowsDistinct(inputs)
    ensures forall i: nat :: i < 3 ==> (ReadyAt(inputs, i) <==> ReadyIn(inputs, WindowAt(i)))
  {
    forall i: nat | i < 3 ensures ReadyAt(inputs, i) <==> ReadyIn(inputs, WindowAt(i)) {
      assert CONFIGURED[i].0 == WindowAt(i);
      if ReadyIn(inputs, WindowAt(i)) {
        var input :| input in inputs && input.window == WindowAt(i) && input.complete && Assess(input.evidence).Some? && Assess(input.evidence).value.ready;
        LookupFinds(inputs, input);
      }
    }
  }

  /** The usable windows of distinct parts are distinct. */
  lemma {:induction false} UsablesDistinct(parts: seq<Part>)
    requires forall i :: 0 <= i < |parts| ==> SoundPart(parts[i])
    requires forall i, j :: 0 <= i < j < |parts| && parts[i].Present? && parts[j].Present? ==> parts[i].usable.window != parts[j].usable.window
    ensures forall i, j :: 0 <= i < j < |Usables(parts)| ==> Usables(parts)[i].window != Usables(parts)[j].window
  {
    if parts != [] {
      var n := |parts| - 1;
      var before := Usables(parts[..n]);
      UsablesDistinct(parts[..n]);
      UsablesMembers(parts[..n]);
      if parts[n].Present? {
        forall i | 0 <= i < |before| ensures before[i].window != parts[n].usable.window {
          assert before[i] in before;
          var k :| 0 <= k < n && parts[..n][k] == Present(before[i]);
          assert parts[k] == Present(before[i]);
        }
      }
    }
  }

  lemma QuotientTimes(a: real, b: real)
    requires b != 0.0
    ensures (a / b) * b == a
  {
  }

  /** A usable window counts and has its weight. */
  lemma UsableCounts(inputs: seq<Input>, u: Usable)
    requires WindowsDistinct(inputs) && Refused !in Parts(inputs) && u in Usables(Parts(inputs))
    ensures Counts(inputs, u.window) && u.weight == Share(inputs, u.window)
  {
    var parts := Parts(inputs);
    UsablesMembers(parts);
    var i: nat :| i < 3 && parts[i] == Present(u);
    assert parts[i] in parts;
    PartCounts(inputs, i);
  }

  lemma UsableWindows(inputs: seq<Input>)
    requires WindowsDistinct(inputs) && Refused !in Parts(inputs)
    ensures var us := Usables(Parts(inputs)); forall i, j :: 0 <= i < j < |us| ==> us[i].window != us[j].window
  {
    var parts := Parts(inputs);
    forall i: nat | i < 3 ensures parts[i].Present? ==> parts[i].usable.window == WindowAt(i) {
      assert parts[i] in parts;
      PartCounts(inputs, i);
    }
    UsablesDistinct(parts);
  }

  lemma LabelExactly(us: seq<Usable>, k: nat, total: real)
    requires k < |us| && AllSound(us) && total == Total(Weights(us))
    ensures Labelled(us)[k].0 == us[k].window && Labelled(us)[k].1 * total == us[k].weight
  {
    PositiveTotal(Weights(us));
    QuotientTimes(us[k].weight, total);
  }

  lemma LabelsSay(inputs: seq<Input>, us: seq<Usable>, labels: seq<(Window, real)>)
    requires |us| + Uncounted(inputs) == 3 && |labels| == |us|
    requires forall i, j :: 0 <= i < j < |us| ==> us[i].window != us[j].window
    requires forall k :: 0 <= k < |us| ==> labels[k].0 == us[k].window && EntrySays(inputs, labels[k])
    ensures WeightsSay(inputs, labels)
  {
  }

  lemma LabelSays(inputs: seq<Input>, us: seq<Usable>, k: nat)
    requires k < |us| && AllSound(us) && Counts(inputs, us[k].window) && us[k].weight == Share(inputs, us[k].window)
    requires Total(Weights(us)) == AllShares(inputs)
    ensures Labelled(us)[k].0 == us[k].window && EntrySays(inputs, Labelled(us)[k])
  {
    LabelExactly(us, k, AllShares(inputs));
  }

  lemma LabelsExactly(inputs: seq<Input>)
    requires WindowsDistinct(inputs) && Refused !in Parts(inputs) && Usables(Parts(inputs)) != []
    ensures WeightsSay(inputs, Labelled(Usables(Parts(inputs))))
  {
    var parts := Parts(inputs);
    var us := Usables(parts);
    UsablesSum(parts, PRICE);
    SumsOfThree(parts, PRICE);
    PartsExactly(inputs, PRICE);
    forall k | 0 <= k < |us| ensures Labelled(us)[k].0 == us[k].window && EntrySays(inputs, Labelled(us)[k]) {
      assert us[k] in us;
      UsableCounts(inputs, us[k]);
      LabelSays(inputs, us, k);
    }
    UsableWindows(inputs);
    UncountedExactly(inputs);
    LabelsSay(inputs, us, Labelled(us));
  }

  ghost predicate CombinationSays(inputs: seq<Input>, r: Option<Combined>) {
    (r.Some? <==> InputsValid(inputs)) && (r.Some? ==> CombinedSays(inputs, r.value))
  }

  /** The combination is what the windows that count say, and is refused exactly for invalid inputs. */
  lemma CombineExactly(inputs: seq<Input>)
    ensures CombinationSays(inputs, Combine(inputs))
  {
    CombineDefined(inputs);
    if Combine(inputs).Some? {
      var us := Usables(Parts(inputs));
      UncountedExactly(inputs);
      if us != [] {
        forall k | 0 <= k < |us| ensures ValidScores(us[k].scores) { assert Sound(us[k]); }
        AverageExactly(inputs, PRICE);
        AverageExactly(inputs, LATENCY);
        AverageExactly(inputs, SLA);
        AverageExactly(inputs, QUALITY);
        ConfidenceExactly(inputs);
        LabelsExactly(inputs);
      }
      DecisionReadyExactly(inputs);
      ReadyExactly(inputs);
      assert WindowAt(0) == Quarter && WindowAt(1) == Hour && WindowAt(2) == Day;
      assert (forall i: nat :: i < 3 ==> ReadyAt(inputs, i)) <==> ReadyAt(inputs, 0) && ReadyAt(inputs, 1) && ReadyAt(inputs, 2);
    }
  }

  // ---------- from raw metrics to composites ----------

  /** The rules of the four dimensions. */
  datatype Rules = Rules(price: seq<Rule>, latency: seq<Rule>, sla: seq<Rule>, quality: seq<Rule>)

  /** What is measured about one window. */
  datatype Raw = Raw(
    window: Window, complete: bool, evidence: Evidence,
    price: seq<real>, latency: seq<real>, sla: seq<real>, quality: seq<real>)

  predicate Scorable(values: seq<real>, rules: seq<Rule>) { |values| == |rules| && DimensionScore(values, rules).Some? }

  predicate Measurable(r: Raw, rules: Rules) {
    && Scorable(r.price, rules.price) && Scorable(r.latency, rules.latency)
    && Scorable(r.sla, rules.sla) && Scorable(r.quality, rules.quality)
  }

  function InputOf(r: Raw, rules: Rules): Input
    requires Measurable(r, rules)
  {
    Input(r.window, r.complete, Scores(
      DimensionScore(r.price, rules.price).value, DimensionScore(r.latency, rules.latency).value,
      DimensionScore(r.sla, rules.sla).value, DimensionScore(r.quality, rules.quality).value), r.evidence)
  }

  function InputsOf(rs: seq<Raw>, rules: Rules): (inputs: seq<Input>)
    requires forall k :: 0 <= k < |rs| ==> Measurable(rs[k], rules)
    ensures |inputs| == |rs|
  {
    seq(|rs|, k requires 0 <= k < |rs| => InputOf(rs[k], rules))
  }

  /** The same window with the same evidence and completeness, and no metric worse. */
  predicate NoWorseWindow(a: Raw, b: Raw, rules: Rules) {
    && a.window == b.window && a.complete == b.complete && a.evidence == b.evidence
    && AllNoWorse(a.price, b.price, rules.price) && AllNoWorse(a.latency, b.latency, rules.latency)
    && AllNoWorse(a.sla, b.sla, rules.sla) && AllNoWorse(a.quality, b.quality, rules.quality)
  }

  predicate ImprovedInput(a: Input, b: Input) {
    && a.window == b.window && a.complete == b.complete && a.evidence == b.evidence
    && ValidScores(a.scores) && ValidScores(b.scores) && NoLower(a.scores, b.scores)
  }

  predicate ImprovedInputs(a: seq<Input>, b: seq<Input>) {
    |a| == |b| && forall k :: 0 <= k < |a| ==> ImprovedInput(a[k], b[k])
  }

  lemma ScoreValid(values: seq<real>, rules: seq<Rule>)
    requires Scorable(values, rules)
    ensures ValidScore(DimensionScore(values, rules).value)
  {
  }

  lemma WindowImproves(a: Raw, b: Raw, rules: Rules)
    requires NoWorseWindow(a, b, rules) && Measurable(a, rules)
    ensures Measurable(b, rules) && ImprovedInput(InputOf(a, rules), InputOf(b, rules))
  {
    DimensionMonotone(a.price, b.price, rules.price);
    DimensionMonotone(a.latency, b.latency, rules.latency);
    DimensionMonotone(a.sla, b.sla, rules.sla);
    DimensionMonotone(a.quality, b.quality, rules.quality);
    forall r | r == a || r == b ensures ValidScores(InputOf(r, rules).scores) {
      ScoreValid(r.price, rules.price);
      ScoreValid(r.latency, rules.latency);
      ScoreValid(r.sla, rules.sla);
      ScoreValid(r.quality, rules.quality);
    }
  }

  lemma {:induction false} LookupImproves(a: seq<Input>, b: seq<Input>, w: Window)
    requires ImprovedInputs(a, b)
    ensures Lookup(a, w).Some? <==> Lookup(b, w).Some?
    ensures Lookup(a, w).Some? ==> ImprovedInput(Lookup(a, w).value, Lookup(b, w).value)
  {
    if a != [] {
      var n := |a| - 1;
      assert ImprovedInput(a[n], b[n]);
      LookupImproves(a[..n], b[..n], w);
    }
  }

  /** Both windows contribute in the same way. */
  predicate ImprovedPart(p: Part, q: Part) {
    match p
    case Present(u) =>
      && q.Present? && u.window == q.usable.window && u.weight == q.usable.weight
      && u.assessment == q.usable.assessment && NoLower(u.scores, q.usable.scores)
    case _ => p == q
  }

  lemma PartImproves(a: seq<Input>, b: seq<Input>, i: nat)
    requires ImprovedInputs(a, b) && i < 3
    ensures ImprovedPart(PartAt(a, i), PartAt(b, i))
  {
    LookupImproves(a, b, CONFIGURED[i].0);
  }

  lemma {:induction false} UsablesImprove(p: seq<Part>, q: seq<Part>)
    requires |p| == |q| && forall i :: 0 <= i < |p| ==> SoundPart(p[i]) && SoundPart(q[i]) && ImprovedPart(p[i], q[i])
    ensures Improved(Usables(p), Usables(q))
  {
    if p != [] {
      var n := |p| - 1;
      UsablesImprove(p[..n], q[..n]);
      assert ImprovedPart(p[n], q[n]);
    }
  }

  lemma PartsImprove(a: seq<Input>, b: seq<Input>)
    requires ImprovedInputs(a, b)
    ensures Refused in Parts(a) <==> Refused in Parts(b)
    ensures Improved(Usables(Parts(a)), Usables(Parts(b)))
  {
    forall i: nat | i < 3 ensures ImprovedPart(Parts(a)[i], Parts(b)[i]) { PartImproves(a, b, i); }
    forall i: nat | i < 3 ensures Parts(a)[i] == Refused <==> Parts(b)[i] == Refused { assert ImprovedPart(Parts(a)[i], Parts(b)[i]); }
    UsablesImprove(Parts(a), Parts(b));
  }

  lemma CombineImproves(a: seq<Input>, b: seq<Input>, kind: AutoKind)
    requires ImprovedInputs(a, b)
    ensures Combine(a).Some? <==> Combine(b).Some?
    ensures Combine(a).Some? ==>
              && Combine(a).value.available == Combine(b).value.available
              && (Combine(a).value.available ==> CompositeNoLower(Combine(a).value.scores, Combine(b).value.scores, kind))
  {
    forall k | 0 <= k < |a| ensures a[k].window == b[k].window { assert ImprovedInput(a[k], b[k]); }
    PartsImprove(a, b);
    var us, vs := Usables(Parts(a)), Usables(Parts(b));
    if us != [] { CombinedMonotone(us, vs, kind); }
  }

  /**
   From end to end: with windows, completeness and evidence unchanged, improving any raw
   metric changes neither whether the windows can be combined nor whether they give a score,
   and never lowers a composite of any kind.
   */
  lemma RawMonotone(a: seq<Raw>, b: seq<Raw>, rules: Rules, kind: AutoKind)
    requires |a| == |b| && forall k :: 0 <= k < |a| ==> Measurable(a[k], rules) && NoWorseWindow(a[k], b[k], rules)
    ensures forall k :: 0 <= k < |b| ==> Measurable(b[k], rules)
    ensures var x, y := Combine(InputsOf(a, rules)), Combine(InputsOf(b, rules));
            && (x.Some? <==> y.Some?)
            && (x.Some? ==> x.value.available == y.value.available)
            && (x.Some? && x.value.available ==> CompositeNoLower(x.value.scores, y.value.scores, kind))
  {
    forall k | 0 <= k < |a| ensures Measurable(b[k], rules) && ImprovedInput(InputOf(a[k], rules), InputOf(b[k], rules)) {
      WindowImproves(a[k], b[k], rules);
    }
    CombineImproves(InputsOf(a, rules), InputsOf(b, rules), kind);
  }

  // ---------- the loops ----------

  /** Indexes the inputs by window; an unknown or repeated one is refused. */
  method Index(inputs: seq<Input>) returns (r: Option<map<Window, Input>>)
    ensures r.Some? <==> WindowsDistinct(inputs)
    ensures r.Some? ==> forall w :: Lookup(inputs, w) == if w in r.value then Some(r.value[w]) else None
  {
    var byWindow: map<Window, Input>, i := map[], 0;
    while i < |inputs|
      invariant i <= |inputs| && WindowsDistinct(inputs[..i])
      invariant forall w :: Lookup(inputs[..i], w) == if w in byWindow then Some(byWindow[w]) else None
    {
      var w := inputs[i].window;
      assert inputs[..i + 1][..i] == inputs[..i];
      if w in byWindow || w.UnknownWindow? {
        assert Lookup(inputs[..i], w).Some? ==> exists k :: 0 <= k < i && inputs[k].window == w;
        return None;
      }
      byWindow := byWindow[w := inputs[i]];
      i := i + 1;
    }
    assert inputs[..i] == inputs;
    r := Some(byWindow);
  }

  /** Assesses one configured window. */
  method ReadPart(inputs: seq<Input>, byWindow: map<Window, Input>, i: nat) returns (part: Part)
    requires i < 3 && forall w :: Lookup(inputs, w) == if w in byWindow then Some(byWindow[w]) else None
    ensures part == PartAt(inputs, i)
  {
    var (window, weight) := CONFIGURED[i];
    if window !in byWindow { return Missing; }
    var input := byWindow[window];
    var assessment := AssessEvidence(input.evidence);
    if assessment.None? { return Refused; }
    if !input.complete || !assessment.value.usable { return Unusable; }
    if !ValidScores(input.scores) { return Refused; }
    part := Present(Usable(window, weight, input.scores, assessment.value));
  }

  lemma UsableSnoc(us: seq<Usable>, u: Usable)
    ensures AllReady(us + [u]) <==> AllReady(us) && u.assessment.ready
    ensures LowestOf(us + [u]) == if Rank(u.assessment.confidence) < LowestOf(us) then Rank(u.assessment.confidence) else LowestOf(us)
  {
    assert (us + [u])[..|us|] == us && (us + [u])[|us|] == u;
    if AllReady(us + [u]) {
      forall k | 0 <= k < |us| ensures us[k].assessment.ready { assert (us + [u])[k] == us[k]; }
    }
  }

  /** Assesses the configured windows in order; the first refusal ends the combination. */
  method ReadParts(inputs: seq<Input>, byWindow: map<Window, Input>) returns (r: Option<seq<Part>>)
    requires forall w :: Lookup(inputs, w) == if w in byWindow then Some(byWindow[w]) else None
    ensures r == if Refused in Parts(inputs) then None else Some(Parts(inputs))
  {
    var parts, i := [], 0;
    while i < 3
      invariant i == |parts| <= 3 && parts == Parts(inputs)[..i] && Refused !in parts
    {
      var part := ReadPart(inputs, byWindow, i);
      assert part == Parts(inputs)[i] && Parts(inputs)[i] in Parts(inputs);
      if part.Refused? { return None; }
      parts := parts + [part];
      i := i + 1;
    }
    assert Parts(inputs)[..3] == Parts(inputs);
    r := Some(parts);
  }

  /** Collects the usable windows, counting the others and keeping the lowest confidence. */
  method CollectUsable(parts: seq<Part>) returns (usable: seq<Usable>, missing: nat, blocked: bool, lowest: nat)
    requires forall i :: 0 <= i < |parts| ==> SoundPart(parts[i])
    ensures usable == Usables(parts) && missing == |parts| - |usable|
    ensures blocked <==> missing > 0 || !AllReady(usable)
    ensures lowest == LowestOf(usable)
  {
    usable, missing, blocked, lowest := [], 0, false, 3;
    var i := 0;
    while i < |parts|
      invariant i <= |parts| && usable == Usables(parts[..i]) && missing == i - |usable|
      invariant blocked <==> missing > 0 || !AllReady(usable)
      invariant lowest == LowestOf(usable)
    {
      assert parts[..i + 1][..i] == parts[..i];
      if parts[i].Present? {
        var u := parts[i].usable;
        UsableSnoc(usable, u);
        usable := usable + [u];
        if Rank(u.assessment.confidence) < lowest { lowest := Rank(u.assessment.confidence); }
        if !u.assessment.ready { blocked := true; }
      } else {
        missing, blocked := missing + 1, true;
      }
      i := i + 1;
    }
    assert parts[..i] == parts;
  }

  /** Adds up one score over the usable windows, each with its share of the total weight. */
  method WeightedAverage(us: seq<Usable>, f: Scores -> real) returns (x: real)
    requires us != [] && AllSound(us)
    ensures x == Average(us, f)
  {
    var shares, sum, k := Effective(us), 0.0, 0;
    while k < |us|
      invariant k <= |us| && sum == Weighted(Column(us, f)[..k], shares[..k])
    {
      WeightedSnoc(Column(us, f)[..k], shares[..k], f(us[k].scores), shares[k]);
      assert Column(us, f)[..k + 1] == Column(us, f)[..k] + [f(us[k].scores)] && shares[..k + 1] == shares[..k] + [shares[k]];
      sum := sum + Times(f(us[k].scores), shares[k]);
      k := k + 1;
    }
    assert Column(us, f)[..k] == Column(us, f) && shares[..k] == shares;
    x := Clamp(sum);
  }

  /** All four scores of the combination. */
  method WeightedScores(us: seq<Usable>) returns (scores: Scores)
    requires us != [] && AllSound(us)
    ensures scores == AverageScores(us)
  {
    var price := WeightedAverage(us, PRICE);
    var latency := WeightedAverage(us, LATENCY);
    var sla := WeightedAverage(us, SLA);
    var quality := WeightedAverage(us, QUALITY);
    scores := Scores(price, latency, sla, quality);
  }

  method CombineWindowScores(inputs: seq<Input>) returns (r: Option<Combined>)
    ensures r == Combine(inputs)
  {
    var byWindow := Index(inputs);
    if byWindow.None? { return None; }
    var parts := ReadParts(inputs, byWindow.value);
    if parts.None? { return None; }
    var us, missing, blocked, lowest := CollectUsable(parts.value);
    if |us| == 0 { return Some(Combined(false, NO_SCORES, [], Insufficient, false)); }
    var scores := WeightedScores(us);
    var confidence := FromRank(lowest as int - missing);
    r := Some(Combined(true, scores, Labelled(us), confidence, !blocked && Rank(confidence) >= 2));
  }
}
