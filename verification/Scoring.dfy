/** From raw metrics to dimension scores, evidence, combined windows and composite scores. */
module Scoring {
  import opened Wrappers
  import opened Sequences

  // ---------- weighted averages ----------

  function Clamp(x: real): (r: real)
    ensures 0.0 <= r <= 100.0
  {
    if x < 0.0 then 0.0 else if x > 100.0 then 100.0 else x
  }

  lemma ClampMonotone(x: real, y: real)
    requires x <= y
    ensures Clamp(x) <= Clamp(y)
  {
  }

  function Total(ws: seq<real>): real { if ws == [] then 0.0 else Total(ws[..|ws| - 1]) + ws[|ws| - 1] }

  function Times(x: real, w: real): real { x * w }

  function Products(xs: seq<real>, ws: seq<real>): (r: seq<real>)
    requires |xs| == |ws|
    ensures |r| == |xs|
  {
    seq(|xs|, k requires 0 <= k < |xs| => Times(xs[k], ws[k]))
  }

  function Weighted(xs: seq<real>, ws: seq<real>): real
    requires |xs| == |ws|
  {
    Total(Products(xs, ws))
  }

  predicate NonNegative(ws: seq<real>) { forall i :: 0 <= i < |ws| ==> ws[i] >= 0.0 }

  predicate Between(xs: seq<real>, lo: real, hi: real) { forall i :: 0 <= i < |xs| ==> lo <= xs[i] <= hi }

  lemma Scaled(x: real, y: real, w: real)
    requires x <= y && w >= 0.0
    ensures x * w <= y * w
  {
  }

  lemma Distribute(x: real, a: real, b: real)
    ensures x * (a + b) == x * a + x * b
  {
  }

  lemma TotalSnoc(ws: seq<real>, w: real)
    ensures Total(ws + [w]) == Total(ws) + w
  {
    assert (ws + [w])[..|ws|] == ws;
  }

  lemma {:induction false} TotalMonotone(a: seq<real>, b: seq<real>)
    requires |a| == |b| && forall i :: 0 <= i < |a| ==> a[i] <= b[i]
    ensures Total(a) <= Total(b)
  {
    if a != [] { TotalMonotone(a[..|a| - 1], b[..|b| - 1]); }
  }

  function Repeat(x: real, n: nat): (r: seq<real>)
    ensures |r| == n
  {
    seq(n, k requires 0 <= k < n => x)
  }

  lemma {:induction false} WeightedConstant(x: real, ws: seq<real>)
    ensures Weighted(Repeat(x, |ws|), ws) == x * Total(ws)
  {
    if ws != [] {
      var n := |ws| - 1;
      WeightedConstant(x, ws[..n]);
      assert Products(Repeat(x, |ws|), ws) == Products(Repeat(x, n), ws[..n]) + [Times(x, ws[n])];
      TotalSnoc(Products(Repeat(x, n), ws[..n]), Times(x, ws[n]));
      Distribute(x, Total(ws[..n]), ws[n]);
    }
  }

  lemma WeightedMonotone(xs: seq<real>, ys: seq<real>, ws: seq<real>)
    requires |xs| == |ys| == |ws| && NonNegative(ws) && forall i :: 0 <= i < |xs| ==> xs[i] <= ys[i]
    ensures Weighted(xs, ws) <= Weighted(ys, ws)
  {
    forall i | 0 <= i < |xs| ensures Products(xs, ws)[i] <= Products(ys, ws)[i] { Scaled(xs[i], ys[i], ws[i]); }
    TotalMonotone(Products(xs, ws), Products(ys, ws));
  }

  lemma WeightedBounds(xs: seq<real>, ws: seq<real>, lo: real, hi: real)
    requires |xs| == |ws| && NonNegative(ws) && Between(xs, lo, hi)
    ensures lo * Total(ws) <= Weighted(xs, ws) <= hi * Total(ws)
  {
    WeightedConstant(lo, ws);
    WeightedConstant(hi, ws);
    WeightedMonotone(Repeat(lo, |ws|), xs, ws);
    WeightedMonotone(xs, Repeat(hi, |ws|), ws);
  }

  // ---------- metrics and dimensions ----------

  /** Maps a raw value onto 0..100 between its best and its worst value. */
  datatype Rule = Rule(best: real, worst: real, weight: real)

  predicate ValidWeights(ws: seq<real>) {
    && (forall i :: 0 <= i < |ws| ==> 0.0 < ws[i] <= 1.0)
    && -0.000000001 <= Total(ws) - 1.0 <= 0.000000001
  }

  function Normalize(value: real, rule: Rule): Option<real> {
    if rule.best == rule.worst then None
    else Some(Clamp(100.0 * (1.0 - (value - rule.best) / (rule.worst - rule.best))))
  }

  /** At least as good under the rule: nearer to the best end of the scale. */
  predicate NoWorse(value: real, than: real, rule: Rule) {
    if rule.best < rule.worst then value <= than else value >= than
  }

  lemma Reciprocal(a: real, d: real)
    requires d != 0.0
    ensures a / d == a * (1.0 / d)
  {
  }

  lemma DivideMonotone(a: real, b: real, d: real)
    requires a <= b && d > 0.0
    ensures a / d <= b / d
  {
    Reciprocal(a, d);
    Reciprocal(b, d);
    Scaled(a, b, 1.0 / d);
  }

  lemma Opposite(a: real, d: real)
    requires d != 0.0
    ensures a / d == (-a) / (-d)
  {
    assert a / d * d == a;
  }

  /** How far a value is from the best end, as a share of the scale. */
  lemma ProgressMonotone(value: real, than: real, rule: Rule)
    requires rule.best != rule.worst && NoWorse(value, than, rule)
    ensures (value - rule.best) / (rule.worst - rule.best) <= (than - rule.best) / (rule.worst - rule.best)
  {
    if rule.best < rule.worst {
      DivideMonotone(value - rule.best, than - rule.best, rule.worst - rule.best);
    } else {
      DivideMonotone(rule.best - value, rule.best - than, rule.best - rule.worst);
      Opposite(value - rule.best, rule.worst - rule.best);
      Opposite(than - rule.best, rule.worst - rule.best);
    }
  }

  lemma NormalizeMonotone(value: real, than: real, rule: Rule)
    requires rule.best != rule.worst && NoWorse(value, than, rule)
    ensures Normalize(than, rule).value <= Normalize(value, rule).value
  {
    var a, b := (value - rule.best) / (rule.worst - rule.best), (than - rule.best) / (rule.worst - rule.best);
    ProgressMonotone(value, than, rule);
    ClampMonotone(100.0 * (1.0 - b), 100.0 * (1.0 - a));
  }

  /**
   The best value scores 100 and the worst 0; in between the score falls evenly, and beyond
   either end it stays where it is.
   */
  predicate NormalSays(value: real, rule: Rule, score: real) {
    && (value == rule.best ==> score == 100.0)
    && (value == rule.worst ==> score == 0.0)
    && (rule.best < value < rule.worst || rule.worst < value < rule.best ==>
          score * (rule.worst - rule.best) == 100.0 * (rule.worst - value))
    && (value < rule.best < rule.worst || rule.worst < rule.best < value ==> score == 100.0)
    && (rule.best < rule.worst < value || value < rule.worst < rule.best ==> score == 0.0)
  }

  lemma NormalExactly(value: real, rule: Rule)
    ensures Normalize(value, rule).None? <==> rule.best == rule.worst
    ensures rule.best != rule.worst ==> NormalSays(value, rule, Normalize(value, rule).value)
  {
    if rule.best != rule.worst {
      var d := rule.worst - rule.best;
      var share := (value - rule.best) / d;
      assert share * d == value - rule.best;
      ShareRange(value - rule.best, d, share);
      assert 100.0 * (1.0 - share) * d == 100.0 * (d - share * d);
    }
  }

  /** Where a share of a scale lies. */
  lemma ShareRange(a: real, d: real, share: real)
    requires d != 0.0 && share * d == a
    ensures a == 0.0 ==> share == 0.0
    ensures a == d ==> share == 1.0
    ensures 0.0 < a < d || d < a < 0.0 ==> 0.0 < share < 1.0
    ensures a < 0.0 < d || d < 0.0 < a ==> share < 0.0
    ensures 0.0 < d < a || a < d < 0.0 ==> share > 1.0
  {
    if share <= 0.0 { Signed(share, d); }
    if share >= 1.0 { Signed(share - 1.0, d); assert (share - 1.0) * d == a - d; }
    if share > 0.0 { Signed(share, d); }
    if share < 1.0 { Signed(share - 1.0, d); assert (share - 1.0) * d == a - d; }
  }

  lemma Signed(x: real, d: real)
    ensures x > 0.0 && d > 0.0 ==> x * d > 0.0
    ensures x > 0.0 && d < 0.0 ==> x * d < 0.0
    ensures x < 0.0 && d > 0.0 ==> x * d < 0.0
    ensures x < 0.0 && d < 0.0 ==> x * d > 0.0
    ensures x == 0.0 ==> x * d == 0.0
  {
  }

  function Normalized(values: seq<real>, rules: seq<Rule>): (r: Option<seq<real>>)
    requires |values| == |rules|
    ensures r.Some? ==> |r.value| == |values|
  {
    if values == [] then Some([])
    else
      var before, last := Normalized(values[..|values| - 1], rules[..|rules| - 1]), Normalize(values[|values| - 1], rules[|rules| - 1]);
      if before.None? || last.None? then None else Some(before.value + [last.value])
  }

  function Weights(rules: seq<Rule>): (ws: seq<real>)
    ensures |ws| == |rules|
  {
    seq(|rules|, i requires 0 <= i < |rules| => rules[i].weight)
  }

  /** The score of one dimension; invalid weights or a rule without a scale give none. */
  function DimensionScore(values: seq<real>, rules: seq<Rule>): Option<real>
    requires |values| == |rules|
  {
    if !ValidWeights(Weights(rules)) || Normalized(values, rules).None? then None
    else Some(Clamp(Weighted(Normalized(values, rules).value, Weights(rules))))
  }

  lemma WeightedSnoc(xs: seq<real>, ws: seq<real>, x: real, w: real)
    requires |xs| == |ws|
    ensures Weighted(xs + [x], ws + [w]) == Weighted(xs, ws) + Times(x, w)
  {
    assert Products(xs + [x], ws + [w]) == Products(xs, ws) + [Times(x, w)];
    TotalSnoc(Products(xs, ws), Times(x, w));
  }

  lemma NormalizedSnoc(values: seq<real>, rules: seq<Rule>, i: nat)
    requires |values| == |rules| && i < |values| && Normalized(values[..i], rules[..i]).Some?
    ensures Normalized(values[..i + 1], rules[..i + 1]) ==
            match Normalize(values[i], rules[i])
            case None => None
            case Some(x) => Some(Normalized(values[..i], rules[..i]).value + [x])
  {
    assert values[..i + 1][..i] == values[..i] && rules[..i + 1][..i] == rules[..i];
  }

  /** The sum of the scores, each times its weight. */
  function Dot(xs: seq<real>, ws: seq<real>): real
    requires |xs| == |ws|
  {
    if xs == [] then 0.0 else xs[0] * ws[0] + Dot(xs[1..], ws[1..])
  }

  lemma {:induction false} DotSnoc(xs: seq<real>, ws: seq<real>, x: real, w: real)
    requires |xs| == |ws|
    ensures Dot(xs + [x], ws + [w]) == Dot(xs, ws) + x * w
  {
    if xs == [] {
      assert ([x])[1..] == [] && ([w])[1..] == [];
      assert xs + [x] == [x] && ws + [w] == [w];
    } else {
      DotSnoc(xs[1..], ws[1..], x, w);
      assert (xs + [x])[1..] == xs[1..] + [x] && (ws + [w])[1..] == ws[1..] + [w];
    }
  }

  lemma {:induction false} WeightedIsDot(xs: seq<real>, ws: seq<real>)
    requires |xs| == |ws|
    ensures Weighted(xs, ws) == Dot(xs, ws)
  {
    if xs != [] {
      var n := |xs| - 1;
      WeightedIsDot(xs[..n], ws[..n]);
      WeightedSnoc(xs[..n], ws[..n], xs[n], ws[n]);
      DotSnoc(xs[..n], ws[..n], xs[n], ws[n]);
      assert xs == xs[..n] + [xs[n]] && ws == ws[..n] + [ws[n]];
    }
  }

  /** Every metric scores between its best and its worst value; the dimension is their weighted sum, at most 100. */
  ghost predicate DimensionSays(values: seq<real>, rules: seq<Rule>, score: real)
    requires |values| == |rules|
  {
    exists xs: seq<real>, ws: seq<real> :: |xs| == |ws| == |values| &&
      (forall i :: 0 <= i < |xs| ==> NormalSays(values[i], rules[i], xs[i]) && ws[i] == rules[i].weight) &&
      score == if Dot(xs, ws) > 100.0 then 100.0 else Dot(xs, ws)
  }

  ghost predicate RulesValid(rules: seq<Rule>) {
    && (forall r <- rules :: r.best != r.worst && 0.0 < r.weight <= 1.0)
    && 0.999999999 <= Total(Weights(rules)) <= 1.000000001
  }

  lemma {:induction false} NormalizedSays(values: seq<real>, rules: seq<Rule>)
    requires |values| == |rules|
    ensures Normalized(values, rules).Some? <==> forall r <- rules :: r.best != r.worst
    ensures Normalized(values, rules).Some? ==>
              forall i :: 0 <= i < |values| ==>
                NormalSays(values[i], rules[i], Normalized(values, rules).value[i]) && 0.0 <= Normalized(values, rules).value[i]
  {
    if values != [] {
      var n := |values| - 1;
      NormalizedSays(values[..n], rules[..n]);
      NormalExactly(values[n], rules[n]);
      assert rules == rules[..n] + [rules[n]];
    }
  }

  lemma WeightsValid(rules: seq<Rule>)
    ensures ValidWeights(Weights(rules)) <==>
            (forall r <- rules :: 0.0 < r.weight <= 1.0) && 0.999999999 <= Total(Weights(rules)) <= 1.000000001
  {
    var ws := Weights(rules);
    forall i | 0 <= i < |ws| ensures rules[i] in rules && ws[i] == rules[i].weight { }
  }

  lemma DimensionOf(values: seq<real>, rules: seq<Rule>, xs: seq<real>, ws: seq<real>)
    requires |values| == |rules| == |xs| == |ws| && NonNegative(xs) && NonNegative(ws)
    requires forall i :: 0 <= i < |xs| ==> NormalSays(values[i], rules[i], xs[i]) && ws[i] == rules[i].weight
    ensures DimensionSays(values, rules, Clamp(Weighted(xs, ws)))
  {
    WeightedIsDot(xs, ws);
    WeightedNonNegative(xs, ws);
  }

  lemma DimensionExactly(values: seq<real>, rules: seq<Rule>)
    requires |values| == |rules|
    ensures DimensionScore(values, rules).Some? <==> RulesValid(rules)
    ensures DimensionScore(values, rules).Some? ==> DimensionSays(values, rules, DimensionScore(values, rules).value)
  {
    NormalizedSays(values, rules);
    WeightsValid(rules);
    if DimensionScore(values, rules).Some? { DimensionOf(values, rules, Normalized(values, rules).value, Weights(rules)); }
  }

  lemma WeightedNonNegative(xs: seq<real>, ws: seq<real>)
    requires |xs| == |ws| && NonNegative(ws) && NonNegative(xs)
    ensures Weighted(xs, ws) >= 0.0
  {
    WeightedConstant(0.0, ws);
    WeightedMonotone(Repeat(0.0, |ws|), xs, ws);
  }

  method ScoreDimension(values: seq<real>, rules: seq<Rule>) returns (r: Option<real>)
    requires |values| == |rules|
    ensures r == DimensionScore(values, rules)
  {
    if !ValidWeights(Weights(rules)) { return None; }
    ghost var components: seq<real> := [];
    var score, i := 0.0, 0;
    while i < |values|
      invariant i <= |values| && Normalized(values[..i], rules[..i]) == Some(components)
      invariant score == Weighted(components, Weights(rules[..i]))
    {
      NormalizedSnoc(values, rules, i);
      var normalized := Normalize(values[i], rules[i]);
      if normalized.None? {
        NormalizedPrefix(values, rules, i + 1);
        return None;
      }
      WeightedSnoc(components, Weights(rules[..i]), normalized.value, rules[i].weight);
      assert Weights(rules[..i + 1]) == Weights(rules[..i]) + [rules[i].weight];
      components := components + [normalized.value];
      score := score + Times(normalized.value, rules[i].weight);
      i := i + 1;
    }
    assert values[..i] == values && rules[..i] == rules;
    r := Some(Clamp(score));
  }

  lemma {:induction false} NormalizedPrefix(values: seq<real>, rules: seq<Rule>, n: nat)
    requires |values| == |rules| && n <= |values| && Normalized(values[..n], rules[..n]).None?
    ensures Normalized(values, rules).None?
    decreases |values|
  {
    if n < |values| {
      var k := |values| - 1;
      assert values[..k][..n] == values[..n] && rules[..k][..n] == rules[..n];
      NormalizedPrefix(values[..k], rules[..k], n);
    } else {
      assert values[..n] == values && rules[..n] == rules;
    }
  }

  predicate AllNoWorse(a: seq<real>, b: seq<real>, rules: seq<Rule>) {
    |a| == |b| == |rules| && forall i :: 0 <= i < |a| ==> NoWorse(a[i], b[i], rules[i])
  }

  lemma {:induction false} NormalizedMonotone(a: seq<real>, b: seq<real>, rules: seq<Rule>)
    requires AllNoWorse(a, b, rules) && Normalized(a, rules).Some?
    ensures Normalized(b, rules).Some?
    ensures forall i :: 0 <= i < |a| ==> Normalized(b, rules).value[i] <= Normalized(a, rules).value[i]
  {
    if a != [] {
      var n := |a| - 1;
      NormalizedMonotone(a[..n], b[..n], rules[..n]);
      NormalizeMonotone(a[n], b[n], rules[n]);
    }
  }

  /** Improving any raw metric never lowers the dimension score. */
  lemma DimensionMonotone(a: seq<real>, b: seq<real>, rules: seq<Rule>)
    requires AllNoWorse(a, b, rules) && DimensionScore(a, rules).Some?
    ensures DimensionScore(b, rules).Some? && DimensionScore(b, rules).value <= DimensionScore(a, rules).value
  {
    NormalizedMonotone(a, b, rules);
    WeightedMonotone(Normalized(b, rules).value, Normalized(a, rules).value, Weights(rules));
    ClampMonotone(Weighted(Normalized(b, rules).value, Weights(rules)), Weighted(Normalized(a, rules).value, Weights(rules)));
  }

  // ---------- evidence ----------

  datatype Confidence = Insufficient | Low | Medium | High

  function Rank(c: Confidence): nat {
    match c
    case Insufficient => 0
    case Low => 1
    case Medium => 2
    case High => 3
  }

  function FromRank(rank: int): Confidence {
    if rank >= 3 then High else if rank == 2 then Medium else if rank == 1 then Low else Insufficient
  }

  const DEFAULT_MINIMUM := 50
  const FACTORS := 8

  /** A confidence factor: its position among the required ones, and its level; absent when not recognized. */
  datatype Factor = Factor(name: Option<nat>, level: Option<Confidence>)

  datatype Evidence = Evidence(
    samples: nat, minimum: nat, factors: seq<Factor>, blankGap: bool, gaps: nat, attributionPending: bool)

  datatype Assessment = Assessment(confidence: Confidence, usable: bool, ready: bool)

  predicate KnownFactor(f: Factor) { f.name.Some? && f.name.value < FACTORS && f.level.Some? }

  predicate FactorsValid(factors: seq<Factor>) {
    && (forall i :: 0 <= i < |factors| ==> KnownFactor(factors[i]))
    && forall i, j :: 0 <= i < j < |factors| ==> factors[i].name != factors[j].name
  }

  predicate Mentions(factors: seq<Factor>, name: nat) { exists i :: 0 <= i < |factors| && factors[i].name == Some(name) }

  predicate AllMentioned(factors: seq<Factor>) { forall n: nat :: n < FACTORS ==> Mentions(factors, n) }

  predicate AllAbove(factors: seq<Factor>, rank: nat) {
    forall i :: 0 <= i < |factors| ==> factors[i].level.Some? && Rank(factors[i].level.value) >= rank
  }

  function Minimum(e: Evidence): nat { if e.minimum == 0 then DEFAULT_MINIMUM else e.minimum }

  /** Enough samples, no gap, nothing pending, and every required factor at some level. */
  predicate Unblocked(e: Evidence) {
    && e.samples >= Minimum(e) && e.gaps == 0 && !e.attributionPending
    && AllMentioned(e.factors) && AllAbove(e.factors, 1)
  }

  function LowestRank(factors: seq<Factor>): (r: nat)
    ensures r <= 3
  {
    if factors == [] then 3
    else
      var before, last := LowestRank(factors[..|factors| - 1]), factors[|factors| - 1].level;
      if last.Some? && Rank(last.value) < before then Rank(last.value) else before
  }

  lemma {:induction false} LowestRankExact(factors: seq<Factor>, rank: nat)
    requires rank <= 3 && forall i :: 0 <= i < |factors| ==> factors[i].level.Some?
    ensures LowestRank(factors) >= rank <==> AllAbove(factors, rank)
  {
    if factors != [] {
      var n := |factors| - 1;
      LowestRankExact(factors[..n], rank);
      assert factors == factors[..n] + [factors[n]];
    }
  }

  /**
   Evidence is refused exactly when a gap is blank or a factor is unknown or repeated. It is
   usable exactly when nothing blocks it, ready exactly when moreover every factor is at
   least medium, and its confidence is the lowest of its factors.
   */
  function Assess(e: Evidence): Option<Assessment> {
    if e.blankGap || !FactorsValid(e.factors) then None
    else Some(Assessment(
      if Unblocked(e) then FromRank(LowestRank(e.factors)) else Insufficient,
      Unblocked(e), Unblocked(e) && AllAbove(e.factors, 2)))
  }

  /** Known factors, none of them twice, and no blank gap. */
  ghost predicate EvidenceValid(e: Evidence) {
    && !e.blankGap
    && (forall f <- e.factors :: f.name.Some? && f.name.value < 8 && f.level.Some?)
    && forall i, j :: 0 <= i < j < |e.factors| ==> e.factors[i].name != e.factors[j].name
  }

  /** What the evidence allows: by samples, gaps, attribution, and the levels of all eight factors. */
  ghost predicate EvidenceSays(e: Evidence, a: Assessment) {
    && (a.usable <==>
          && e.samples >= (if e.minimum == 0 then 50 else e.minimum) && e.gaps == 0 && !e.attributionPending
          && (forall n: nat :: n < 8 ==> exists f <- e.factors :: f.name == Some(n))
          && (forall f <- e.factors :: f.level != Some(Insufficient)))
    && (a.ready <==> a.usable && forall f <- e.factors :: f.level != Some(Low))
    && (a.confidence == Insufficient <==> !a.usable)
    && (a.confidence == Low <==> a.usable && exists f <- e.factors :: f.level == Some(Low))
    && (a.confidence == High <==> a.usable && forall f <- e.factors :: f.level == Some(High))
  }

  lemma AboveSays(factors: seq<Factor>)
    requires forall f <- factors :: f.level.Some?
    ensures AllAbove(factors, 1) <==> forall f <- factors :: f.level != Some(Insufficient)
    ensures AllAbove(factors, 2) <==> forall f <- factors :: f.level != Some(Insufficient) && f.level != Some(Low)
    ensures AllAbove(factors, 3) <==> forall f <- factors :: f.level == Some(High)
  {
    forall i | 0 <= i < |factors| ensures factors[i] in factors && factors[i].level.Some? { }
  }

  lemma AssessExactly(e: Evidence)
    ensures Assess(e).Some? <==> EvidenceValid(e)
    ensures Assess(e).Some? ==> EvidenceSays(e, Assess(e).value)
  {
    forall i | 0 <= i < |e.factors| ensures e.factors[i] in e.factors { }
    if Assess(e).Some? {
      AboveSays(e.factors);
      LowestRankExact(e.factors, 1);
      LowestRankExact(e.factors, 2);
      LowestRankExact(e.factors, 3);
      forall n: nat | n < 8 ensures Mentions(e.factors, n) <==> exists f <- e.factors :: f.name == Some(n) { }
    }
  }

  method AssessEvidence(e: Evidence) returns (r: Option<Assessment>)
    ensures r == Assess(e)
    ensures r.Some? <==> EvidenceValid(e)
    ensures r.Some? ==> EvidenceSays(e, r.value)
  {
    AssessExactly(e);
    var blocked := e.samples < Minimum(e);
    if e.blankGap { return None; }
    blocked := blocked || e.gaps > 0 || e.attributionPending;
    var scan := ScanFactors(e.factors);
    if scan.None? { return None; }
    var (seen, lowest, weak) := scan.value;
    var missing := exists n: nat :: n < FACTORS && n !in seen;
    LowestRankExact(e.factors, 2);
    if blocked || weak || missing { return Some(Assessment(Insufficient, false, false)); }
    r := Some(Assessment(FromRank(lowest), true, lowest >= 2));
  }

  /** The names seen, the lowest rank, and whether some factor is insufficient. */
  method ScanFactors(factors: seq<Factor>) returns (r: Option<(set<nat>, nat, bool)>)
    ensures r.Some? <==> FactorsValid(factors)
    ensures r.Some? ==>
              && (forall n :: n in r.value.0 <==> Mentions(factors, n))
              && r.value.1 == LowestRank(factors)
              && (r.value.2 <==> !AllAbove(factors, 1))
  {
    var seen: set<nat>, lowest, weak, i := {}, 3, false, 0;
    while i < |factors|
      invariant i <= |factors| && FactorsValid(factors[..i])
      invariant forall n :: n in seen <==> Mentions(factors[..i], n)
      invariant lowest == LowestRank(factors[..i])
      invariant weak <==> !AllAbove(factors[..i], 1)
    {
      var f := factors[i];
      assert factors[..i + 1] == factors[..i] + [f];
      if !KnownFactor(f) || f.name.value in seen {
        RefusedFactor(factors, i);
        return None;
      }
      AcceptedFactor(factors[..i], f);
      seen := seen + {f.name.value};
      if Rank(f.level.value) < lowest { lowest := Rank(f.level.value); }
      if f.level.value.Insufficient? { weak := true; }
      i := i + 1;
    }
    assert factors[..i] == factors;
    r := Some((seen, lowest, weak));
  }

  lemma AcceptedFactor(factors: seq<Factor>, f: Factor)
    requires FactorsValid(factors) && KnownFactor(f) && !Mentions(factors, f.name.value)
    ensures FactorsValid(factors + [f])
    ensures forall n :: Mentions(factors + [f], n) <==> Mentions(factors, n) || f.name.value == n
    ensures LowestRank(factors + [f]) == if Rank(f.level.value) < LowestRank(factors) then Rank(f.level.value) else LowestRank(factors)
    ensures AllAbove(factors + [f], 1) <==> AllAbove(factors, 1) && !f.level.value.Insufficient?
  {
    var all := factors + [f];
    assert all[..|factors|] == factors && all[|factors|] == f;
    MentionsSnoc(factors, f);
    forall i | 0 <= i < |factors| ensures all[i].name != f.name { assert factors[i].name != Some(f.name.value); }
    if AllAbove(all, 1) {
      forall i | 0 <= i < |factors| ensures Rank(factors[i].level.value) >= 1 { assert all[i] == factors[i]; }
    }
  }

  lemma RefusedFactor(factors: seq<Factor>, i: nat)
    requires i < |factors|
    requires !KnownFactor(factors[i]) || Mentions(factors[..i], factors[i].name.value)
    ensures !FactorsValid(factors)
  {
    if KnownFactor(factors[i]) {
      var k :| 0 <= k < i && factors[..i][k].name == Some(factors[i].name.value);
      assert factors[k].name == factors[i].name;
    }
  }

  lemma MentionsSnoc(factors: seq<Factor>, f: Factor)
    requires f.name.Some?
    ensures forall n :: Mentions(factors + [f], n) <==> Mentions(factors, n) || f.name.value == n
  {
    forall n ensures Mentions(factors + [f], n) <==> Mentions(factors, n) || f.name.value == n {
      assert (factors + [f])[|factors|] == f;
      if Mentions(factors, n) {
        var k :| 0 <= k < |factors| && factors[k].name == Some(n);
        assert (factors + [f])[k].name == Some(n);
      }
    }
  }
}
