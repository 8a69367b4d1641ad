/** The probes of an evaluation run, determined by its purpose and seed. */
module EvaluationPlan {
  import opened Text
  import opened Sequences

  datatype Purpose = Health | Authenticity | Quality | Recovery

  const CELLS := [
    "number_1_100:en", "number_1_100:zh", "number_1_10:en", "number_1_10:zh",
    "color:en", "color:zh", "coin:en", "coin:zh"]
  const OBJECTIVES := ["arithmetic", "ordering", "unicode", "json"]
  const SAMPLES_PER_CELL := 12
  const PROMPTS_PER_CELL := 2

  /** One planned probe; the operands belong to the addition asked in health probes. */
  datatype Probe = Probe(key: string, index: nat, variant: nat, left: nat, right: nat)

  function PlannedSamples(purpose: Purpose): (n: nat)
    ensures 1 <= n <= 96
  {
    match purpose
    case Authenticity => |CELLS| * SAMPLES_PER_CELL
    case Quality => 4
    case Recovery => 3
    case Health => 1
  }

  /** The seeded generator: the value of its n-th call, for a bound. */
  type Random = (nat, nat, nat) -> nat

  function CellProbe(seed: nat, random: Random, k: nat): Probe
    requires k < |CELLS| * SAMPLES_PER_CELL
  {
    Probe(CELLS[k / SAMPLES_PER_CELL], k % SAMPLES_PER_CELL, random(seed, k, PROMPTS_PER_CELL), 0, 0)
  }

  function SumProbe(seed: nat, random: Random, k: nat): Probe {
    Probe("stream_health", k, 0, random(seed, 2 * k, 40) + 10, random(seed, 2 * k + 1, 40) + 10)
  }

  function PlanOf(purpose: Purpose, seed: nat, random: Random): (plan: seq<Probe>)
    ensures |plan| == PlannedSamples(purpose)
  {
    match purpose
    case Authenticity =>
      seq(|CELLS| * SAMPLES_PER_CELL, k requires 0 <= k < |CELLS| * SAMPLES_PER_CELL => CellProbe(seed, random, k))
    case Quality => seq(|OBJECTIVES|, k requires 0 <= k < |OBJECTIVES| => Probe(OBJECTIVES[k], 0, 0, 0, 0))
    case _ => seq(PlannedSamples(purpose), k requires 0 <= k => SumProbe(seed, random, k))
  }

  /** No two probes of a plan share key and index. */
  ghost predicate DistinctProbes(plan: seq<Probe>) {
    forall i, j :: 0 <= i < j < |plan| ==> plan[i].key != plan[j].key || plan[i].index != plan[j].index
  }

  lemma CellsDistinct()
    ensures forall i, j :: 0 <= i < j < |CELLS| ==> CELLS[i] != CELLS[j]
  {
    assert |CELLS[0]| == 15 && |CELLS[1]| == 15 && |CELLS[2]| == 14 && |CELLS[3]| == 14;
    assert |CELLS[4]| == 8 && |CELLS[5]| == 8 && |CELLS[6]| == 7 && |CELLS[7]| == 7;
    assert CELLS[0][13] != CELLS[1][13] && CELLS[2][12] != CELLS[3][12];
    assert CELLS[4][6] != CELLS[5][6] && CELLS[6][5] != CELLS[7][5];
  }

  lemma PlanDistinct(purpose: Purpose, seed: nat, random: Random)
    ensures DistinctProbes(PlanOf(purpose, seed, random))
  {
    var plan := PlanOf(purpose, seed, random);
    match purpose
    case Authenticity =>
      CellsDistinct();
      forall i, j | 0 <= i < j < |plan| ensures plan[i].key != plan[j].key || plan[i].index != plan[j].index {
        CellPosition(i, j);
      }
    case Quality =>
      assert |OBJECTIVES[0]| == 10 && |OBJECTIVES[1]| == 8 && |OBJECTIVES[2]| == 7 && |OBJECTIVES[3]| == 4;
    case _ =>
  }

  lemma CellPosition(i: nat, j: nat)
    requires i < j
    ensures i / SAMPLES_PER_CELL < j / SAMPLES_PER_CELL || i % SAMPLES_PER_CELL != j % SAMPLES_PER_CELL
  {
  }

  /** The sample of a cell stands after those of the cells before it and draws its variant there. */
  predicate CellSays(plan: seq<Probe>, seed: nat, random: Random, c: nat, n: nat) {
    && |plan| == 96 && c < 8 && n < 12
    && plan[12 * c + n] == Probe(CELLS[c], n, random(seed, 12 * c + n, 2), 0, 0)
  }

  /** Twelve samples of every cell in turn. */
  lemma CellsDrawn(seed: nat, random: Random)
    ensures forall c: nat, n: nat :: c < 8 && n < 12 ==> CellSays(PlanOf(Authenticity, seed, random), seed, random, c, n)
  {
    forall c: nat, n: nat | c < 8 && n < 12 ensures CellSays(PlanOf(Authenticity, seed, random), seed, random, c, n) {
      assert (12 * c + n) / 12 == c && (12 * c + n) % 12 == n;
    }
  }

  /** One probe for each of four objectives. */
  lemma ObjectivesPlanned(seed: nat, random: Random)
    ensures PlanOf(Quality, seed, random) ==
            [Probe("arithmetic", 0, 0, 0, 0), Probe("ordering", 0, 0, 0, 0), Probe("unicode", 0, 0, 0, 0), Probe("json", 0, 0, 0, 0)]
  {
  }

  /** Two operands between 10 and 49 are drawn for every sum, the left one first. */
  lemma SumsDrawn(purpose: Purpose, seed: nat, random: Random, k: nat)
    requires purpose.Health? || purpose.Recovery?
    requires k < if purpose.Health? then 1 else 3
    ensures |PlanOf(purpose, seed, random)| == if purpose.Health? then 1 else 3
    ensures PlanOf(purpose, seed, random)[k] ==
            Probe("stream_health", k, 0, 10 + random(seed, 2 * k, 40), 10 + random(seed, 2 * k + 1, 40))
  {
  }

  /** Draws every variant in the order of cells and samples, as the generator is called. */
  method CellPlan(seed: nat, random: Random) returns (plan: seq<Probe>)
    ensures plan == PlanOf(Authenticity, seed, random)
    ensures forall c: nat, n: nat :: c < 8 && n < 12 ==> CellSays(plan, seed, random, c, n)
  {
    CellsDrawn(seed, random);
    plan := [];
    var cell := 0;
    while cell < |CELLS|
      invariant cell <= |CELLS| && |plan| == cell * SAMPLES_PER_CELL
      invariant forall k :: 0 <= k < |plan| ==> plan[k] == CellProbe(seed, random, k)
    {
      var index := 0;
      while index < SAMPLES_PER_CELL
        invariant index <= SAMPLES_PER_CELL && |plan| == cell * SAMPLES_PER_CELL + index
        invariant forall k :: 0 <= k < |plan| ==> plan[k] == CellProbe(seed, random, k)
      {
        var variant := random(seed, |plan|, PROMPTS_PER_CELL);
        plan := plan + [Probe(CELLS[cell], index, variant, 0, 0)];
        index := index + 1;
      }
      cell := cell + 1;
    }
  }

  method SumPlan(purpose: Purpose, seed: nat, random: Random) returns (plan: seq<Probe>)
    requires purpose.Health? || purpose.Recovery?
    ensures plan == PlanOf(purpose, seed, random)
    ensures |plan| == if purpose.Health? then 1 else 3
    ensures forall k: nat :: k < |plan| ==>
              plan[k] == Probe("stream_health", k, 0, 10 + random(seed, 2 * k, 40), 10 + random(seed, 2 * k + 1, 40))
  {
    plan := [];
    var index := 0;
    while index < PlannedSamples(purpose)
      invariant index == |plan| <= PlannedSamples(purpose)
      invariant forall k :: 0 <= k < index ==> plan[k] == SumProbe(seed, random, k)
    {
      var left := random(seed, 2 * index, 40) + 10;
      var right := random(seed, 2 * index + 1, 40) + 10;
      plan := plan + [Probe("stream_health", index, 0, left, right)];
      index := index + 1;
    }
  }

  // ---------- sample identities ----------

  function SampleIdentity(key: string, index: nat): string { key + ":" + Decimal(index) }

  lemma LastColon(key: string, index: nat)
    ensures var s := SampleIdentity(key, index);
            s[|key|] == ':' && forall i :: |key| < i < |s| ==> s[i] != ':'
  {
    var s := SampleIdentity(key, index);
    forall i | |key| < i < |s| ensures s[i] != ':' { assert s[i] == Decimal(index)[i - |key| - 1]; }
  }

  /** Keys contain colons themselves; the identity still determines key and index. */
  lemma SampleIdentityInjective(key: string, index: nat, key': string, index': nat)
    ensures SampleIdentity(key, index) == SampleIdentity(key', index') <==> key == key' && index == index'
  {
    if SampleIdentity(key, index) == SampleIdentity(key', index') {
      LastColon(key, index);
      LastColon(key', index');
      var s := SampleIdentity(key, index);
      assert s[..|key|] == key && s[..|key|] == key';
      assert s[|key| + 1..] == Decimal(index) && s[|key| + 1..] == Decimal(index');
      DecimalRoundTrip(index);
      DecimalRoundTrip(index');
    }
  }
}
