/** Scheduled automation runs over the strategies and holds of one site. */
module AutomationRuns {
  import opened Wrappers
  import opened Sequences
  import opened Scoring
  import opened WindowScores
  import opened Advice
  import opened Automation
  import Text

  datatype Site = Site(strategies: seq<Strategy>, holds: set<nat>)

  /** The advice of one score run: per strategy, its candidates and their models. */
  datatype Entry = Entry(relation: nat, models: seq<ModelAdvice>)

  /** `ready`: scores complete, fresh, and the remote side compatible; `accepted`: the transaction went through. */
  datatype RunInput = RunInput(entries: seq<seq<Entry>>, ready: bool, accepted: bool)

  predicate Processed(s: Strategy) { s.enabled && s.automatic }

  function CandidatesOf(s: Strategy, holds: set<nat>, entries: seq<Entry>): (cs: seq<Candidate>)
    ensures |cs| == |entries|
  {
    seq(|entries|, i requires 0 <= i < |entries| =>
      Candidate(entries[i].relation, entries[i].relation in s.members, entries[i].relation in holds, entries[i].models))
  }

  function Candidates(s: Site, input: RunInput, i: nat): (cs: seq<Candidate>)
    requires i < |s.strategies| == |input.entries|
  {
    CandidatesOf(s.strategies[i], s.holds, input.entries[i])
  }

  /** The candidates of a strategy have distinct relations, one per enabled relation of the site. */
  ghost predicate WellFormed(s: Site, input: RunInput) {
    |s.strategies| == |input.entries| &&
    forall i :: 0 <= i < |input.entries| ==>
      forall j, k :: 0 <= j < k < |input.entries[i]| ==> input.entries[i][j].relation != input.entries[i][k].relation
  }

  predicate Decided(s: Site, input: RunInput)
    requires |s.strategies| == |input.entries|
  {
    forall i: nat :: i < |s.strategies| && Processed(s.strategies[i]) ==> Decidable(Candidates(s, input, i))
  }

  function StrategyAfter(s: Site, input: RunInput, i: nat): Strategy
    requires i < |s.strategies| == |input.entries|
  {
    if Processed(s.strategies[i]) then Updated(s.strategies[i], Candidates(s, input, i)) else s.strategies[i]
  }

  function StrategiesAfter(s: Site, input: RunInput): (t: seq<Strategy>)
    requires |s.strategies| == |input.entries|
    ensures |t| == |s.strategies|
  {
    seq(|s.strategies|, i requires 0 <= i < |s.strategies| => StrategyAfter(s, input, i))
  }

  /** Some decision about the relation asks for this hold action. */
  predicate Asks(s: Site, input: RunInput, relation: nat, hold: HoldAction)
    requires |s.strategies| == |input.entries|
  {
    exists i: nat :: i < |s.strategies| && Processed(s.strategies[i]) && AsksIn(s.strategies[i].members, Candidates(s, input, i), relation, hold)
  }

  function AsksFor(members: set<nat>, hold: HoldAction): Candidate -> bool {
    (c: Candidate) => ValidModels(c.models) && DecisionOf(members, c).hold == hold
  }

  predicate AsksIn(members: set<nat>, cs: seq<Candidate>, relation: nat, hold: HoldAction) {
    relation in Chosen(AsksFor(members, hold), cs)
  }

  function Mentioned(entries: seq<seq<Entry>>): set<nat> {
    set i, k | 0 <= i < |entries| && 0 <= k < |entries[i]| :: entries[i][k].relation
  }

  /** Applying wins over clearing where both are asked for. */
  function HoldsAfter(s: Site, input: RunInput): set<nat>
    requires |s.strategies| == |input.entries|
  {
    (set r | r in s.holds && (Asks(s, input, r, Apply) || !Asks(s, input, r, Clear)))
    + (set r | r in Mentioned(input.entries) && Asks(s, input, r, Apply))
  }

  predicate Changes(s: Site, input: RunInput)
    requires |s.strategies| == |input.entries|
  {
    StrategiesAfter(s, input) != s.strategies || HoldsAfter(s, input) != s.holds
  }

  /** A run that is frozen, invalid or refused changes nothing. */
  function AfterRun(s: Site, input: RunInput): Site
    requires |s.strategies| == |input.entries|
  {
    if !input.ready || !Decided(s, input) || (Changes(s, input) && !input.accepted) then s
    else Site(StrategiesAfter(s, input), HoldsAfter(s, input))
  }

  predicate Completed(s: Site, input: RunInput)
    requires |s.strategies| == |input.entries|
  {
    input.ready && Decided(s, input) && (Changes(s, input) ==> input.accepted)
  }

  // ---------- members and entries ----------

  /** In a processed strategy exactly the candidates are decided; every other strategy is left alone. */
  lemma MembersAfterRun(s: Site, input: RunInput, i: nat)
    requires WellFormed(s, input) && i < |s.strategies| && Completed(s, input)
    ensures var t := AfterRun(s, input);
            var cs := Candidates(s, input, i);
            && (!s.strategies[i].enabled || !s.strategies[i].automatic ==> t.strategies[i] == s.strategies[i])
            && (Processed(s.strategies[i]) ==>
                  && t.strategies[i].members == (s.strategies[i].members - Relations(cs)) + Chosen(Wants(s.strategies[i].members), cs)
                  && forall k :: 0 <= k < |cs| ==>
                       (cs[k].relation in t.strategies[i].members <==> DecisionOf(s.strategies[i].members, cs[k]).target))
  {
    var cs := Candidates(s, input, i);
    if Processed(s.strategies[i]) {
      assert Decidable(cs) && CandidatesDistinct(cs);
      forall k | 0 <= k < |cs|
        ensures cs[k].relation in NewMembers(s.strategies[i].members, cs) <==> DecisionOf(s.strategies[i].members, cs[k]).target
      {
        ChooseMember(Wants(s.strategies[i].members), s.strategies[i].members, cs, k);
      }
    }
  }

  /** Every candidate of a processed strategy has advice that can be decided on. */
  ghost predicate AllWellAdvised(s: Site, input: RunInput)
    requires |s.strategies| == |input.entries|
  {
    forall i: nat, k: nat ::
      i < |s.strategies| && s.strategies[i].enabled && s.strategies[i].automatic && k < |input.entries[i]| ==>
        WellAdvised(input.entries[i][k].models)
  }

  /** A run completes when it is ready and accepted and all its advice usable, and otherwise changes nothing. */
  lemma RunCompletes(s: Site, input: RunInput)
    requires |s.strategies| == |input.entries|
    ensures input.ready && input.accepted && AllWellAdvised(s, input) ==> Completed(s, input)
    ensures !input.ready || !input.accepted || !AllWellAdvised(s, input) ==> AfterRun(s, input) == s
  {
    forall i: nat, k: nat | i < |s.strategies| && k < |input.entries[i]|
      ensures ValidModels(Candidates(s, input, i)[k].models) <==> WellAdvised(input.entries[i][k].models)
    {
      DecideExactly(false, false, input.entries[i][k].models);
    }
    if Decided(s, input) {
      forall i: nat, k: nat |
        i < |s.strategies| && s.strategies[i].enabled && s.strategies[i].automatic && k < |input.entries[i]|
        ensures WellAdvised(input.entries[i][k].models)
      {
        assert Decidable(Candidates(s, input, i));
      }
      if !Changes(s, input) { assert Site(StrategiesAfter(s, input), HoldsAfter(s, input)) == s; }
    }
  }

  /**
   What a completed run makes of a candidate of a processed strategy, by the advice of its
   models: a member that is not held stays unless a model says to leave or excludes it; one
   that is not a member joins when all models say so, and a held one comes back then.
   */
  lemma MembersByAdvice(s: Site, input: RunInput, i: nat, k: nat)
    requires WellFormed(s, input) && i < |s.strategies| && Completed(s, input)
    requires s.strategies[i].enabled && s.strategies[i].automatic && k < |input.entries[i]|
    ensures var e := input.entries[i][k];
            e.relation in AfterRun(s, input).strategies[i].members <==>
              if e.relation in s.strategies[i].members && e.relation !in s.holds then
                forall m <- e.models :: m.action != Exit && m.action != Exclude
              else
                forall m <- e.models :: m.action == Join
  {
    var c := Candidates(s, input, i)[k];
    MembersAfterRun(s, input, i);
    assert ValidModels(c.models);
    DecideExactly(c.relation in s.strategies[i].members, c.held, c.models);
    assert c.models[0] in c.models;
  }

  /** Some processed strategy has the relation as a candidate whose models all say to join. */
  predicate JoinedSomewhere(s: Site, input: RunInput, relation: nat)
    requires |s.strategies| == |input.entries|
  {
    exists i, k | 0 <= i < |s.strategies| && s.strategies[i].enabled && s.strategies[i].automatic && 0 <= k < |input.entries[i]| ::
      input.entries[i][k].relation == relation && forall m <- input.entries[i][k].models :: m.action == Join
  }

  /** Some processed strategy has the relation as a candidate with a model that is excluded. */
  predicate ExcludedSomewhere(s: Site, input: RunInput, relation: nat)
    requires |s.strategies| == |input.entries|
  {
    exists i, k | 0 <= i < |s.strategies| && s.strategies[i].enabled && s.strategies[i].automatic && 0 <= k < |input.entries[i]| ::
      input.entries[i][k].relation == relation && exists m <- input.entries[i][k].models :: m.action == Exclude
  }

  lemma CandidateAsks(s: Site, input: RunInput, i: nat, k: nat)
    requires |s.strategies| == |input.entries| && Decided(s, input)
    requires i < |s.strategies| && Processed(s.strategies[i]) && k < |input.entries[i]|
    ensures var e, c := input.entries[i][k], Candidates(s, input, i)[k];
            && (AsksFor(s.strategies[i].members, Apply)(c) <==> e.relation !in s.holds && exists m <- e.models :: m.action == Exclude)
            && (AsksFor(s.strategies[i].members, Clear)(c) <==> e.relation in s.holds && forall m <- e.models :: m.action == Join)
  {
    var c := Candidates(s, input, i)[k];
    assert Decidable(Candidates(s, input, i));
    DecideExactly(c.relation in s.strategies[i].members, c.held, c.models);
    assert c.models[0] in c.models;
  }

  lemma ApplyByAdvice(s: Site, input: RunInput, relation: nat)
    requires |s.strategies| == |input.entries| && Decided(s, input)
    ensures Asks(s, input, relation, Apply) <==> relation !in s.holds && ExcludedSomewhere(s, input, relation)
  {
    if Asks(s, input, relation, Apply) {
      var i: nat, k := AskedBy(s, input, relation, Apply);
      CandidateAsks(s, input, i, k);
    }
    if relation !in s.holds && ExcludedSomewhere(s, input, relation) {
      var i, k :| 0 <= i < |s.strategies| && s.strategies[i].enabled && s.strategies[i].automatic && 0 <= k < |input.entries[i]| &&
        input.entries[i][k].relation == relation && exists m <- input.entries[i][k].models :: m.action == Exclude;
      CandidateAsks(s, input, i, k);
      Asking(s, input, i, k, Apply);
    }
  }

  lemma ClearByAdvice(s: Site, input: RunInput, relation: nat)
    requires |s.strategies| == |input.entries| && Decided(s, input)
    ensures Asks(s, input, relation, Clear) <==> relation in s.holds && JoinedSomewhere(s, input, relation)
  {
    if Asks(s, input, relation, Clear) {
      var i: nat, k := AskedBy(s, input, relation, Clear);
      CandidateAsks(s, input, i, k);
    }
    if relation in s.holds && JoinedSomewhere(s, input, relation) {
      var i, k :| 0 <= i < |s.strategies| && s.strategies[i].enabled && s.strategies[i].automatic && 0 <= k < |input.entries[i]| &&
        input.entries[i][k].relation == relation && forall m <- input.entries[i][k].models :: m.action == Join;
      CandidateAsks(s, input, i, k);
      Asking(s, input, i, k, Clear);
    }
  }

  /** A hold lasts until all models of the relation say to join, and begins when one of them is excluded. */
  lemma HoldsByAdvice(s: Site, input: RunInput, relation: nat)
    requires |s.strategies| == |input.entries| && Completed(s, input)
    ensures relation in AfterRun(s, input).holds <==>
              if relation in s.holds then !JoinedSomewhere(s, input, relation) else ExcludedSomewhere(s, input, relation)
  {
    ApplyByAdvice(s, input, relation);
    ClearByAdvice(s, input, relation);
    if Asks(s, input, relation, Apply) { AskedMentioned(s, input, relation, Apply); }
  }

  lemma AskedBy(s: Site, input: RunInput, relation: nat, hold: HoldAction) returns (i: nat, k: nat)
    requires |s.strategies| == |input.entries| && Asks(s, input, relation, hold)
    ensures i < |s.strategies| && Processed(s.strategies[i]) && k < |input.entries[i]|
    ensures input.entries[i][k].relation == relation
    ensures AsksFor(s.strategies[i].members, hold)(Candidates(s, input, i)[k])
  {
    i :| i < |s.strategies| && Processed(s.strategies[i]) && AsksIn(s.strategies[i].members, Candidates(s, input, i), relation, hold);
    var cs := Candidates(s, input, i);
    k :| k < |cs| && AsksFor(s.strategies[i].members, hold)(cs[k]) && cs[k].relation == relation;
  }

  lemma Asking(s: Site, input: RunInput, i: nat, k: nat, hold: HoldAction)
    requires |s.strategies| == |input.entries| && i < |s.strategies| && Processed(s.strategies[i]) && k < |input.entries[i]|
    requires AsksFor(s.strategies[i].members, hold)(Candidates(s, input, i)[k])
    ensures Asks(s, input, input.entries[i][k].relation, hold)
  {
    assert AsksIn(s.strategies[i].members, Candidates(s, input, i), input.entries[i][k].relation, hold);
  }

  predicate Offered(s: Strategy) { s.visible || s.closed }

  /** Whether an entry is offered never changes, and a processed one is visible exactly when it has members. */
  lemma EntryAfterRun(s: Site, input: RunInput, i: nat)
    requires |s.strategies| == |input.entries| && i < |s.strategies|
    ensures Offered(AfterRun(s, input).strategies[i]) == Offered(s.strategies[i])
    ensures Completed(s, input) && s.strategies[i].enabled && s.strategies[i].automatic ==>
              var t := AfterRun(s, input).strategies[i];
              (t.visible <==> Offered(t) && t.members != {}) && (t.closed <==> Offered(t) && t.members == {})
  {
    EntryFollowsMembers(s.strategies[i], Candidates(s, input, i));
  }

  // ---------- holds ----------

  /** Every strategy sees the same exclusions. */
  ghost predicate Uniform(s: Site, input: RunInput)
    requires |s.strategies| == |input.entries|
  {
    forall i: nat, j: nat, k, l ::
      i < |s.strategies| && j < |s.strategies| && 0 <= k < |input.entries[i]| && 0 <= l < |input.entries[j]|
      && input.entries[i][k].relation == input.entries[j][l].relation ==>
        AnyExclude(input.entries[i][k].models) == AnyExclude(input.entries[j][l].models)
  }

  /**
   What a score run recorded for one model of a relation: windows and gates once, the
   previous record and the membership at that time per kind.
   */
  datatype Snapshot = Snapshot(
    model: string, id: nat, members: set<AutoKind>, windows: Combined, gates: GateInput, at: int,
    previous: AutoKind -> Option<Previous>)

  /** The models of every relation. */
  type Scores = nat -> seq<Snapshot>

  function ScoredFor(snapshot: Snapshot, kind: AutoKind): Scored {
    Scored(snapshot.windows, snapshot.gates, snapshot.previous(kind), snapshot.at)
  }

  predicate AdvisedFrom(m: ModelAdvice, snapshot: Snapshot, kind: AutoKind) {
    && m.model == snapshot.model && m.snapshot == snapshot.id
    && var advised := AdviceFor(kind, kind in snapshot.members, ScoredFor(snapshot, kind), M2);
       advised.Some? && m.action == advised.value.action
  }

  predicate EntryFrom(e: Entry, snapshots: seq<Snapshot>, kind: AutoKind) {
    |e.models| == |snapshots| && forall m :: 0 <= m < |snapshots| ==> AdvisedFrom(e.models[m], snapshots[m], kind)
  }

  /** The advice of every strategy comes from one score run, for the kind of the strategy. */
  ghost predicate FromScores(kinds: seq<AutoKind>, scores: Scores, input: RunInput) {
    && |kinds| == |input.entries|
    && forall i: nat, k: nat :: i < |kinds| && k < |input.entries[i]| ==>
         EntryFrom(input.entries[i][k], scores(input.entries[i][k].relation), kinds[i])
  }

  predicate GatesFail(snapshot: Snapshot) { EvaluateGates(snapshot.gates, M2.failureLimit).value.failed != [] }

  lemma AdviceExcludes(m: ModelAdvice, snapshot: Snapshot, kind: AutoKind)
    requires AdvisedFrom(m, snapshot, kind)
    ensures m.action == Exclude <==> GatesFail(snapshot)
  {
    var scored, member := ScoredFor(snapshot, kind), kind in snapshot.members;
    var streak := StreakOf(kind, scored.windows, scored.previous, scored.at, M2).value;
    ExclusionIsUniform(kind, kind, member, member, scored.windows, scored.gates, streak, streak, M2);
  }

  lemma EntryExcludes(e: Entry, snapshots: seq<Snapshot>, kind: AutoKind)
    requires EntryFrom(e, snapshots, kind)
    ensures AnyExclude(e.models) <==> exists m :: 0 <= m < |snapshots| && GatesFail(snapshots[m])
  {
    forall m | 0 <= m < |snapshots| ensures e.models[m].action == Exclude <==> GatesFail(snapshots[m]) {
      AdviceExcludes(e.models[m], snapshots[m], kind);
    }
  }

  /** Hard gates are judged once per relation and model, so every strategy sees the same exclusions. */
  lemma ScoresAreUniform(kinds: seq<AutoKind>, scores: Scores, s: Site, input: RunInput)
    requires |s.strategies| == |input.entries| && FromScores(kinds, scores, input)
    ensures Uniform(s, input)
  {
    forall i: nat, k: nat | i < |kinds| && k < |input.entries[i]|
      ensures AnyExclude(input.entries[i][k].models) <==>
              var snapshots := scores(input.entries[i][k].relation);
              exists m :: 0 <= m < |snapshots| && GatesFail(snapshots[m])
    {
      EntryExcludes(input.entries[i][k], scores(input.entries[i][k].relation), kinds[i]);
    }
  }

  lemma ApplyMeansExcluded(members: set<nat>, c: Candidate)
    requires ValidModels(c.models)
    ensures DecisionOf(members, c).hold == Apply <==> AnyExclude(c.models) && !c.held
    ensures DecisionOf(members, c).hold == Clear ==> !AnyExclude(c.models) && c.held && DecisionOf(members, c).target
    ensures AnyExclude(c.models) || (c.held && DecisionOf(members, c).hold != Clear) ==> !DecisionOf(members, c).target
  {
  }

  lemma UniformNeverBoth(s: Site, input: RunInput, relation: nat)
    requires |s.strategies| == |input.entries| && Uniform(s, input)
    ensures !(Asks(s, input, relation, Apply) && Asks(s, input, relation, Clear))
  {
    forall i: nat, j: nat |
      && i < |s.strategies| && AsksIn(s.strategies[i].members, Candidates(s, input, i), relation, Apply)
      && j < |s.strategies|
      ensures !AsksIn(s.strategies[j].members, Candidates(s, input, j), relation, Clear)
    {
      var cs, ds := Candidates(s, input, i), Candidates(s, input, j);
      var k :| 0 <= k < |cs| && AsksFor(s.strategies[i].members, Apply)(cs[k]) && cs[k].relation == relation;
      ApplyMeansExcluded(s.strategies[i].members, cs[k]);
      forall l | 0 <= l < |ds| && ds[l].relation == relation && ValidModels(ds[l].models)
        ensures !AsksFor(s.strategies[j].members, Clear)(ds[l])
      {
        assert input.entries[i][k].relation == input.entries[j][l].relation;
        ApplyMeansExcluded(s.strategies[j].members, ds[l]);
      }
    }
  }

  lemma UniformHeldNotMember(s: Site, input: RunInput, i: nat, k: nat)
    requires WellFormed(s, input) && Uniform(s, input) && Completed(s, input)
    requires i < |s.strategies| && Processed(s.strategies[i]) && k < |input.entries[i]|
    requires input.entries[i][k].relation in AfterRun(s, input).holds
    ensures input.entries[i][k].relation !in AfterRun(s, input).strategies[i].members
  {
    var cs, members := Candidates(s, input, i), s.strategies[i].members;
    var relation := cs[k].relation;
    MembersAfterRun(s, input, i);
    assert Decidable(cs);
    UniformNeverBoth(s, input, relation);
    ApplyMeansExcluded(members, cs[k]);
    assert !Asks(s, input, relation, Clear);
    assert !AsksIn(members, cs, relation, Clear);
    assert !AsksFor(members, Clear)(cs[k]);
    if !cs[k].held { AppliedElsewhere(s, input, i, k); }
  }

  /** A relation that becomes held was excluded, and so it is excluded everywhere. */
  lemma AppliedElsewhere(s: Site, input: RunInput, i: nat, k: nat)
    requires |s.strategies| == |input.entries| && Uniform(s, input)
    requires i < |s.strategies| && k < |input.entries[i]|
    requires Asks(s, input, input.entries[i][k].relation, Apply)
    ensures AnyExclude(input.entries[i][k].models)
  {
    var relation := input.entries[i][k].relation;
    var j: nat :| j < |s.strategies| && Processed(s.strategies[j]) && AsksIn(s.strategies[j].members, Candidates(s, input, j), relation, Apply);
    var ds := Candidates(s, input, j);
    var l :| 0 <= l < |ds| && AsksFor(s.strategies[j].members, Apply)(ds[l]) && ds[l].relation == relation;
    ApplyMeansExcluded(s.strategies[j].members, ds[l]);
    assert input.entries[j][l].relation == input.entries[i][k].relation;
  }

  /** No run over the advice of one score run both applies and clears a hold on one relation. */
  lemma NeverAppliesAndClears(kinds: seq<AutoKind>, scores: Scores, s: Site, input: RunInput, relation: nat)
    requires |s.strategies| == |input.entries| && FromScores(kinds, scores, input)
    ensures !(Asks(s, input, relation, Apply) && Asks(s, input, relation, Clear))
  {
    ScoresAreUniform(kinds, scores, s, input);
    UniformNeverBoth(s, input, relation);
  }

  /** After a completed run no held relation is in a processed strategy it was a candidate of. */
  lemma HeldNotMember(kinds: seq<AutoKind>, scores: Scores, s: Site, input: RunInput, i: nat, k: nat)
    requires WellFormed(s, input) && FromScores(kinds, scores, input) && Completed(s, input)
    requires i < |s.strategies| && Processed(s.strategies[i]) && k < |input.entries[i]|
    requires input.entries[i][k].relation in AfterRun(s, input).holds
    ensures input.entries[i][k].relation !in AfterRun(s, input).strategies[i].members
  {
    ScoresAreUniform(kinds, scores, s, input);
    UniformHeldNotMember(s, input, i, k);
  }

  // ---------- sequences of runs ----------

  /** Every run takes the advice of a score run of its own, for strategies whose kinds are fixed. */
  ghost predicate Runs(kinds: seq<AutoKind>, scores: seq<Scores>, sites: seq<Site>, inputs: seq<RunInput>) {
    && |sites| == |inputs| + 1 && |scores| == |inputs|
    && forall n :: 0 <= n < |inputs| ==>
         && WellFormed(sites[n], inputs[n]) && FromScores(kinds, scores[n], inputs[n])
         && sites[n + 1] == AfterRun(sites[n], inputs[n])
  }

  /** Over any sequence of scheduled runs, modes and offers of the strategies stay as the operator set them. */
  lemma {:induction false} OffersStay(
    kinds: seq<AutoKind>, scores: seq<Scores>, sites: seq<Site>, inputs: seq<RunInput>, n: nat, i: nat)
    requires Runs(kinds, scores, sites, inputs) && n <= |inputs| && i < |sites[0].strategies|
    ensures |sites[n].strategies| == |sites[0].strategies|
    ensures Offered(sites[n].strategies[i]) == Offered(sites[0].strategies[i])
    ensures Processed(sites[n].strategies[i]) == Processed(sites[0].strategies[i])
  {
    if n > 0 {
      OffersStay(kinds, scores, sites, inputs, n - 1, i);
      EntryAfterRun(sites[n - 1], inputs[n - 1], i);
    }
  }

  /** After every completed run: visible means offered with members, and no candidate is both held and a member. */
  lemma EveryRunKeeps(kinds: seq<AutoKind>, scores: seq<Scores>, sites: seq<Site>, inputs: seq<RunInput>, n: nat, i: nat)
    requires Runs(kinds, scores, sites, inputs) && n < |inputs| && Completed(sites[n], inputs[n])
    requires i < |sites[0].strategies| && Processed(sites[0].strategies[i])
    ensures i < |sites[n + 1].strategies| && i < |inputs[n].entries|
    ensures var t := sites[n + 1].strategies[i]; t.visible <==> Offered(sites[0].strategies[i]) && t.members != {}
    ensures forall k :: 0 <= k < |inputs[n].entries[i]| && inputs[n].entries[i][k].relation in sites[n + 1].holds ==>
              inputs[n].entries[i][k].relation !in sites[n + 1].strategies[i].members
  {
    OffersStay(kinds, scores, sites, inputs, n, i);
    EntryAfterRun(sites[n], inputs[n], i);
    forall k | 0 <= k < |inputs[n].entries[i]| && inputs[n].entries[i][k].relation in sites[n + 1].holds
      ensures inputs[n].entries[i][k].relation !in sites[n + 1].strategies[i].members
    {
      HeldNotMember(kinds, scores[n], sites[n], inputs[n], i, k);
    }
  }

  // ---------- runs that load before another run applies ----------

  /** The transaction refuses when a strategy it is about to change was changed since it was loaded. */
  ghost predicate GoesThrough(loaded: Site, now: Site, input: RunInput)
    requires |loaded.strategies| == |now.strategies| == |input.entries|
  {
    Completed(loaded, input) && forall i: nat :: i < |loaded.strategies| ==> !Outdated(loaded, now, input, i)
  }

  predicate ChangedBy(loaded: Site, input: RunInput, i: nat)
    requires i < |loaded.strategies| == |input.entries|
  {
    StrategyAfter(loaded, input, i) != loaded.strategies[i]
  }

  predicate Outdated(loaded: Site, now: Site, input: RunInput, i: nat)
    requires i < |loaded.strategies| == |now.strategies| == |input.entries|
  {
    ChangedBy(loaded, input, i) && now.strategies[i] != loaded.strategies[i]
  }

  /**
   Decisions are made from what was loaded; the transaction then checks the versions of the
   strategies it changes, but not the holds the decisions were based on.
   */
  ghost function AfterLateRun(loaded: Site, now: Site, input: RunInput): Site
    requires |loaded.strategies| == |now.strategies| == |input.entries|
  {
    if !GoesThrough(loaded, now, input) then now
    else Site(
      seq(|loaded.strategies|, i requires 0 <= i < |loaded.strategies| =>
        if ChangedBy(loaded, input, i) then StrategyAfter(loaded, input, i) else now.strategies[i]),
      (now.holds - (set r | r in now.holds && Asks(loaded, input, r, Clear) && !Asks(loaded, input, r, Apply)))
      + (set r | r in Mentioned(input.entries) && Asks(loaded, input, r, Apply)))
  }

  /** When nothing happened in between, this is a run. */
  lemma PromptRunIsRun(s: Site, input: RunInput)
    requires |s.strategies| == |input.entries|
    ensures AfterLateRun(s, s, input) == AfterRun(s, input)
  {
    if Completed(s, input) {
      assert AfterLateRun(s, s, input).strategies == StrategiesAfter(s, input);
      assert AfterLateRun(s, s, input).holds == HoldsAfter(s, input);
    }
  }

  /** A relation the run wants as a member was held after loading. */
  ghost predicate HeldMeanwhile(loaded: Site, now: Site, input: RunInput, i: nat, k: nat)
    requires i < |loaded.strategies| == |now.strategies| == |input.entries| && k < |input.entries[i]|
    requires Decidable(Candidates(loaded, input, i))
  {
    var relation := input.entries[i][k].relation;
    && relation in now.holds && relation !in loaded.holds
    && DecisionOf(loaded.strategies[i].members, Candidates(loaded, input, i)[k]).target
    && (ChangedBy(loaded, input, i) || relation in now.strategies[i].members)
  }

  /** In a strategy the run leaves alone, a relation joined after loading that the run holds, or does not release. */
  ghost predicate JoinedMeanwhile(loaded: Site, now: Site, input: RunInput, i: nat, k: nat)
    requires i < |loaded.strategies| == |now.strategies| == |input.entries| && k < |input.entries[i]|
  {
    var relation := input.entries[i][k].relation;
    && !ChangedBy(loaded, input, i)
    && relation !in loaded.strategies[i].members && relation in now.strategies[i].members
    && (Asks(loaded, input, relation, Apply) || (relation in now.holds && !Asks(loaded, input, relation, Clear)))
  }

  lemma LateHolds(loaded: Site, now: Site, input: RunInput, relation: nat)
    requires |loaded.strategies| == |now.strategies| == |input.entries| && Uniform(loaded, input)
    requires GoesThrough(loaded, now, input)
    ensures relation in AfterLateRun(loaded, now, input).holds <==>
            Asks(loaded, input, relation, Apply) || (relation in now.holds && !Asks(loaded, input, relation, Clear))
  {
    UniformNeverBoth(loaded, input, relation);
    if Asks(loaded, input, relation, Apply) { AskedMentioned(loaded, input, relation, Apply); }
  }

  lemma ClearMeansHeld(loaded: Site, input: RunInput, relation: nat)
    requires |loaded.strategies| == |input.entries| && Asks(loaded, input, relation, Clear)
    ensures relation in loaded.holds
  {
    var i: nat :| i < |loaded.strategies| && Processed(loaded.strategies[i]) &&
                  AsksIn(loaded.strategies[i].members, Candidates(loaded, input, i), relation, Clear);
    var cs := Candidates(loaded, input, i);
    var k :| 0 <= k < |cs| && AsksFor(loaded.strategies[i].members, Clear)(cs[k]) && cs[k].relation == relation;
    ApplyMeansExcluded(loaded.strategies[i].members, cs[k]);
  }

  /** A wanted candidate is not excluded, and is released if it was held. */
  lemma WantedAsks(loaded: Site, input: RunInput, i: nat, k: nat)
    requires |loaded.strategies| == |input.entries| && Uniform(loaded, input) && i < |loaded.strategies|
    requires Processed(loaded.strategies[i]) && k < |input.entries[i]| && Decidable(Candidates(loaded, input, i))
    requires DecisionOf(loaded.strategies[i].members, Candidates(loaded, input, i)[k]).target
    ensures !Asks(loaded, input, input.entries[i][k].relation, Apply)
    ensures Asks(loaded, input, input.entries[i][k].relation, Clear) <==> input.entries[i][k].relation in loaded.holds
  {
    var cs, members := Candidates(loaded, input, i), loaded.strategies[i].members;
    var relation := cs[k].relation;
    ApplyMeansExcluded(members, cs[k]);
    if Asks(loaded, input, relation, Apply) { AppliedElsewhere(loaded, input, i, k); }
    if Asks(loaded, input, relation, Clear) { ClearMeansHeld(loaded, input, relation); }
    if relation in loaded.holds {
      assert AsksFor(members, Clear)(cs[k]);
      assert AsksIn(members, cs, relation, Clear);
    }
  }

  /**
   A run that decides from what it loaded and goes through later leaves a candidate both
   held and a member exactly when the relation was held or joined in between and this is
   not noticed.
   */
  lemma LateRunExactly(
    kinds: seq<AutoKind>, scores: Scores, loaded: Site, now: Site, input: RunInput, i: nat, k: nat)
    requires |loaded.strategies| == |now.strategies| && WellFormed(loaded, input) && FromScores(kinds, scores, input)
    requires GoesThrough(loaded, now, input)
    requires i < |loaded.strategies| && Processed(loaded.strategies[i]) && k < |input.entries[i]|
    ensures var t, relation := AfterLateRun(loaded, now, input), input.entries[i][k].relation;
            relation in t.holds && relation in t.strategies[i].members <==>
              HeldMeanwhile(loaded, now, input, i, k) || JoinedMeanwhile(loaded, now, input, i, k)
  {
    var relation := input.entries[i][k].relation;
    ScoresAreUniform(kinds, scores, loaded, input);
    LateHolds(loaded, now, input, relation);
    MembersAfterRun(loaded, input, i);
    assert Candidates(loaded, input, i)[k].relation == relation;
    if DecisionOf(loaded.strategies[i].members, Candidates(loaded, input, i)[k]).target { WantedAsks(loaded, input, i, k); }
  }

  // ---------- both ways of missing it happen ----------

  const WITH_TWO := Strategy(true, true, true, false, {2})
  const JOINING := ModelAdvice("m", 1, Join, {}, {})
  const EXCLUDING := ModelAdvice("m", 1, Exclude, {}, {})
  const KEEPING := [ModelAdvice("m", 2, Keep, {}, {})]

  lemma OneModel(m: ModelAdvice)
    requires m.model == "m" && m.snapshot != 0
    ensures ValidModels([m])
    ensures AllJoin([m]) <==> m.action == Join
    ensures AnyExit([m]) <==> m.action == Exit
    ensures AnyExclude([m]) <==> m.action == Exclude
  {
    assert Text.Trim("m") == "m";
    assert [m][0] == m;
  }

  const BEFORE := Site([WITH_TWO], {})
  const JOINED := Site([WITH_TWO.(members := {1, 2})], {})
  const HELD := Site([WITH_TWO], {1})

  /** Advice about relation 1, and advice to keep relation 2. */
  function Advising(first: ModelAdvice): RunInput { RunInput([[Entry(1, [first]), Entry(2, KEEPING)]], true, true) }

  function Pair(first: ModelAdvice): seq<Candidate> { [Candidate(1, false, false, [first]), Candidate(2, true, false, KEEPING)] }

  predicate Plain(m: ModelAdvice) { m.model == "m" && m.snapshot != 0 && m.action in {Join, Exclude} }

  lemma PairDecided(first: ModelAdvice)
    requires Plain(first)
    ensures Decidable(Pair(first))
    ensures Wants({2})(Pair(first)[1]) && (Wants({2})(Pair(first)[0]) <==> first.action == Join)
    ensures !AsksFor({2}, Apply)(Pair(first)[1]) && (AsksFor({2}, Apply)(Pair(first)[0]) <==> first.action == Exclude)
    ensures !AsksFor({2}, Clear)(Pair(first)[1]) && !AsksFor({2}, Clear)(Pair(first)[0])
  {
    OneModel(first);
    OneModel(KEEPING[0]);
  }

  lemma PairChosen(wanted: Candidate -> bool, cs: seq<Candidate>)
    requires |cs| == 2 && cs[0].relation == 1 && cs[1].relation == 2
    ensures Relations(cs) == {1, 2}
    ensures Chosen(wanted, cs) == (if wanted(cs[0]) then {1} else {}) + (if wanted(cs[1]) then {2} else {})
  {
  }

  lemma PairUpdated(first: ModelAdvice)
    requires Plain(first)
    ensures Updated(WITH_TWO, Pair(first)) == if first.action == Join then WITH_TWO.(members := {1, 2}) else WITH_TWO
  {
    PairDecided(first);
    PairChosen(Wants({2}), Pair(first));
    assert NewMembers({2}, Pair(first)) == if first.action == Join then {1, 2} else {2};
  }

  lemma PairAsks(first: ModelAdvice, relation: nat)
    requires Plain(first)
    ensures Asks(BEFORE, Advising(first), relation, Apply) <==> first.action == Exclude && relation == 1
    ensures !Asks(BEFORE, Advising(first), relation, Clear)
  {
    PairDecided(first);
    assert Candidates(BEFORE, Advising(first), 0) == Pair(first);
    PairChosen(AsksFor({2}, Apply), Pair(first));
    PairChosen(AsksFor({2}, Clear), Pair(first));
  }

  lemma PairHolds(first: ModelAdvice)
    requires Plain(first)
    ensures HoldsAfter(BEFORE, Advising(first)) == if first.action == Join then {} else {1}
  {
    var input := Advising(first);
    forall r ensures r in HoldsAfter(BEFORE, input) <==> first.action == Exclude && r == 1 {
      PairAsks(first, r);
      assert input.entries[0][0].relation == 1;
    }
  }

  lemma PairStrategies(first: ModelAdvice)
    requires Plain(first)
    ensures Decided(BEFORE, Advising(first))
    ensures StrategiesAfter(BEFORE, Advising(first)) == if first.action == Join then JOINED.strategies else HELD.strategies
  {
    PairDecided(first);
    PairUpdated(first);
    assert Candidates(BEFORE, Advising(first), 0) == Pair(first);
    assert StrategiesAfter(BEFORE, Advising(first)) == [Updated(WITH_TWO, Pair(first))];
  }

  /** Relation 1 joins, or is held. */
  lemma PairRun(first: ModelAdvice)
    requires Plain(first)
    ensures Completed(BEFORE, Advising(first))
    ensures AfterRun(BEFORE, Advising(first)) == if first.action == Join then JOINED else HELD
  {
    PairStrategies(first);
    PairHolds(first);
  }

  /** A hold that another run applied after loading is not noticed: the held relation joins. */
  lemma LateRunJoinsHeld()
    ensures var now := AfterRun(BEFORE, Advising(EXCLUDING));
            var t := AfterLateRun(BEFORE, now, Advising(JOINING));
            GoesThrough(BEFORE, now, Advising(JOINING)) && 1 in t.holds && 1 in t.strategies[0].members
  {
    PairRun(EXCLUDING);
    PairRun(JOINING);
    PairStrategies(EXCLUDING);
    PairStrategies(JOINING);
    PairAsks(JOINING, 1);
    assert StrategyAfter(BEFORE, Advising(JOINING), 0) == StrategiesAfter(BEFORE, Advising(JOINING))[0];
  }

  /** The other way round: a relation that joined after loading is held and stays a member. */
  lemma LateRunHoldsMember()
    ensures var now := AfterRun(BEFORE, Advising(JOINING));
            var t := AfterLateRun(BEFORE, now, Advising(EXCLUDING));
            GoesThrough(BEFORE, now, Advising(EXCLUDING)) && 1 in t.holds && 1 in t.strategies[0].members
  {
    PairRun(EXCLUDING);
    PairRun(JOINING);
    PairStrategies(EXCLUDING);
    PairStrategies(JOINING);
    PairAsks(EXCLUDING, 1);
    AskedMentioned(BEFORE, Advising(EXCLUDING), 1, Apply);
    assert StrategyAfter(BEFORE, Advising(EXCLUDING), 0) == StrategiesAfter(BEFORE, Advising(EXCLUDING))[0];
  }

  // ---------- no flip between adjacent score runs ----------

  /** The advice of one kind for all models of a supplier, from their scores. */
  predicate AdvisedBy(models: seq<ModelAdvice>, kind: AutoKind, member: bool, scored: seq<Scored>) {
    |models| == |scored| && forall m :: 0 <= m < |models| ==>
      AdviceFor(kind, member, scored[m], M2).Some? && models[m].action == AdviceFor(kind, member, scored[m], M2).value.action
  }

  /** The second run finds what the first recorded, for the same models. */
  predicate Adjacent(kind: AutoKind, member: bool, first: seq<Scored>, second: seq<Scored>) {
    |first| == |second| && forall m :: 0 <= m < |first| ==>
      AdviceFor(kind, member, first[m], M2).Some? &&
      second[m].previous == Some(Recorded(AdviceFor(kind, member, first[m], M2).value, first[m].at))
  }

  predicate Joins(d: Decision) { d.act == DoJoin || d.act == DoRecover }

  /** No model turns from joining to leaving or back. */
  predicate Steady(a: seq<ModelAdvice>, b: seq<ModelAdvice>) {
    |a| == |b| && forall m :: 0 <= m < |a| ==>
      && (a[m].action == Join ==> b[m].action != Exit)
      && (a[m].action == Exit ==> b[m].action != Join)
  }

  lemma SteadyDecisions(member: bool, member': bool, held: bool, held': bool, a: seq<ModelAdvice>, b: seq<ModelAdvice>)
    requires ValidModels(a) && ValidModels(b) && Steady(a, b)
    ensures Joins(Decide(member, held, a).value) ==> Decide(member', held', b).value.act != DoExit
    ensures Decide(member, held, a).value.act == DoExit ==> !Joins(Decide(member', held', b).value)
  {
    if AllJoin(a) { assert !AnyExit(b); }
    if AnyExit(a) {
      var m :| 0 <= m < |a| && a[m].action == Exit;
      assert b[m].action != Join;
    }
  }

  /**
   Apart from hard gates, a supplier that one score run lets in is not sent out by the next
   run over the same models, and one that was sent out is not let in. Membership is read
   once when scoring (`scored`) and again when deciding (`member`), and may have changed.
   */
  lemma NoFlipBetweenRuns(
    kind: AutoKind, scored: bool, scored': bool, member: bool, member': bool, held: bool, held': bool,
    a: seq<ModelAdvice>, b: seq<ModelAdvice>, first: seq<Scored>, second: seq<Scored>)
    requires ValidModels(a) && ValidModels(b)
    requires AdvisedBy(a, kind, scored, first) && AdvisedBy(b, kind, scored', second) && Adjacent(kind, scored, first, second)
    ensures Joins(Decide(member, held, a).value) ==> Decide(member', held', b).value.act != DoExit
    ensures Decide(member, held, a).value.act == DoExit ==> !Joins(Decide(member', held', b).value)
  {
    assert Steady(a, b) by {
      forall m | 0 <= m < |a|
        ensures a[m].action == Join ==> b[m].action != Exit
        ensures a[m].action == Exit ==> b[m].action != Join
      {
        NoFlip(kind, first[m], second[m], scored, scored');
      }
    }
    SteadyDecisions(member, member', held, held', a, b);
  }

  // ---------- the run as it goes over strategies and decisions ----------

  lemma ChosenSnoc(wanted: Candidate -> bool, cs: seq<Candidate>, k: nat)
    requires k < |cs|
    ensures Chosen(wanted, cs[..k + 1]) == Chosen(wanted, cs[..k]) + if wanted(cs[k]) then {cs[k].relation} else {}
  {
    assert cs[..k + 1] == cs[..k] + [cs[k]];
  }

  /** Which relations the decisions of one strategy ask to hold, and which to release. */
  method HoldsAsked(members: set<nat>, cs: seq<Candidate>, decisions: seq<Decision>) returns (applied: set<nat>, cleared: set<nat>)
    requires Decidable(cs) && decisions == DecisionsOf(members, cs)
    ensures applied == Chosen(AsksFor(members, Apply), cs) && cleared == Chosen(AsksFor(members, Clear), cs)
  {
    applied, cleared := {}, {};
    var k := 0;
    while k < |cs|
      invariant k <= |cs|
      invariant applied == Chosen(AsksFor(members, Apply), cs[..k])
      invariant cleared == Chosen(AsksFor(members, Clear), cs[..k])
    {
      ChosenSnoc(AsksFor(members, Apply), cs, k);
      ChosenSnoc(AsksFor(members, Clear), cs, k);
      if decisions[k].hold == Apply { applied := applied + {cs[k].relation}; }
      if decisions[k].hold == Clear { cleared := cleared + {cs[k].relation}; }
      k := k + 1;
    }
    assert cs[..k] == cs;
  }

  predicate AsksBefore(s: Site, input: RunInput, n: nat, relation: nat, hold: HoldAction)
    requires n <= |s.strategies| == |input.entries|
  {
    exists i: nat :: i < n && Processed(s.strategies[i]) && AsksIn(s.strategies[i].members, Candidates(s, input, i), relation, hold)
  }

  lemma AsksMore(s: Site, input: RunInput, n: nat, relation: nat, hold: HoldAction)
    requires n < |s.strategies| == |input.entries|
    ensures AsksBefore(s, input, n + 1, relation, hold) <==>
            AsksBefore(s, input, n, relation, hold) ||
            (Processed(s.strategies[n]) && AsksIn(s.strategies[n].members, Candidates(s, input, n), relation, hold))
  {
  }

  lemma AskedMentioned(s: Site, input: RunInput, relation: nat, hold: HoldAction)
    requires |s.strategies| == |input.entries| && Asks(s, input, relation, hold)
    ensures relation in Mentioned(input.entries)
  {
    var i: nat :| i < |s.strategies| && Processed(s.strategies[i]) && AsksIn(s.strategies[i].members, Candidates(s, input, i), relation, hold);
    var cs := Candidates(s, input, i);
    var k :| 0 <= k < |cs| && AsksFor(s.strategies[i].members, hold)(cs[k]) && cs[k].relation == relation;
    assert input.entries[i][k].relation == relation;
  }

  datatype Outcome = Outcome(strategies: seq<Strategy>, applied: set<nat>, cleared: set<nat>, changed: bool)

  /** The relations asked for by the first `n` strategies. */
  ghost predicate Asked(s: Site, input: RunInput, n: nat, hold: HoldAction, relations: set<nat>)
    requires n <= |s.strategies| == |input.entries|
  {
    forall r :: r in relations <==> AsksBefore(s, input, n, r, hold)
  }

  /** The relations asked for by one strategy. */
  ghost predicate AskedAt(s: Site, input: RunInput, n: nat, hold: HoldAction, relations: set<nat>)
    requires n < |s.strategies| == |input.entries|
  {
    forall r :: r in relations <==>
      Processed(s.strategies[n]) && AsksIn(s.strategies[n].members, Candidates(s, input, n), r, hold)
  }

  lemma AskedStep(s: Site, input: RunInput, n: nat, hold: HoldAction, relations: set<nat>, more: set<nat>)
    requires n < |s.strategies| == |input.entries|
    requires Asked(s, input, n, hold, relations) && AskedAt(s, input, n, hold, more)
    ensures Asked(s, input, n + 1, hold, relations + more)
  {
    forall r ensures r in relations + more <==> AsksBefore(s, input, n + 1, r, hold) { AsksMore(s, input, n, r, hold); }
  }

  /** The first `n` strategies are as they will be, and whether any of them changes. */
  ghost predicate Prefixed(s: Site, input: RunInput, n: nat, strategies: seq<Strategy>, changed: bool)
    requires n <= |s.strategies| == |input.entries|
  {
    strategies == StrategiesAfter(s, input)[..n] && (changed <==> strategies != s.strategies[..n])
  }

  lemma PrefixedStep(s: Site, input: RunInput, n: nat, strategies: seq<Strategy>, changed: bool, t: Strategy)
    requires n < |s.strategies| == |input.entries| && Prefixed(s, input, n, strategies, changed)
    requires t == StrategyAfter(s, input, n)
    ensures Prefixed(s, input, n + 1, strategies + [t], changed || t != s.strategies[n])
  {
    assert StrategiesAfter(s, input)[..n + 1] == StrategiesAfter(s, input)[..n] + [t];
    assert s.strategies[..n + 1] == s.strategies[..n] + [s.strategies[n]];
    PairSnoc(strategies, s.strategies[..n], t, s.strategies[n]);
  }

  lemma PairSnoc<T>(a: seq<T>, b: seq<T>, x: T, y: T)
    requires |a| == |b|
    ensures a + [x] == b + [y] <==> a == b && x == y
  {
    if a + [x] == b + [y] {
      assert a == (a + [x])[..|a|] && b == (b + [y])[..|b|];
      assert x == (a + [x])[|a|] && y == (b + [y])[|b|];
    }
  }

  predicate DecidedBefore(s: Site, input: RunInput, n: nat)
    requires n <= |s.strategies| == |input.entries|
  {
    forall i: nat :: i < n && Processed(s.strategies[i]) ==> Decidable(Candidates(s, input, i))
  }

  /** What deciding the first `n` strategies comes to. */
  ghost predicate Progress(s: Site, input: RunInput, n: nat, o: Outcome)
    requires n <= |s.strategies| == |input.entries|
  {
    && Prefixed(s, input, n, o.strategies, o.changed) && DecidedBefore(s, input, n)
    && Asked(s, input, n, Apply, o.applied) && Asked(s, input, n, Clear, o.cleared)
  }

  lemma DecidedStep(s: Site, input: RunInput, n: nat)
    requires n < |s.strategies| == |input.entries| && DecidedBefore(s, input, n)
    requires Processed(s.strategies[n]) ==> Decidable(Candidates(s, input, n))
    ensures DecidedBefore(s, input, n + 1)
  {
  }

  lemma ProgressStep(
    s: Site, input: RunInput, n: nat, o: Outcome, t: Strategy, applied: set<nat>, cleared: set<nat>)
    requires n < |s.strategies| == |input.entries| && Progress(s, input, n, o)
    requires t == StrategyAfter(s, input, n)
    requires Processed(s.strategies[n]) ==> Decidable(Candidates(s, input, n))
    requires AskedAt(s, input, n, Apply, applied) && AskedAt(s, input, n, Clear, cleared)
    ensures Progress(s, input, n + 1,
                     Outcome(o.strategies + [t], o.applied + applied, o.cleared + cleared, o.changed || t != s.strategies[n]))
  {
    AskedStep(s, input, n, Apply, o.applied, applied);
    AskedStep(s, input, n, Clear, o.cleared, cleared);
    PrefixedStep(s, input, n, o.strategies, o.changed, t);
    DecidedStep(s, input, n);
  }

  /** Decides one strategy, or leaves it alone when it is disabled or kept by hand. */
  method DecideOne(s: Site, input: RunInput, n: nat) returns (r: Option<(Strategy, set<nat>, set<nat>)>)
    requires WellFormed(s, input) && n < |s.strategies|
    ensures r.Some? <==> (Processed(s.strategies[n]) ==> Decidable(Candidates(s, input, n)))
    ensures r.Some? ==>
              && r.value.0 == StrategyAfter(s, input, n)
              && AskedAt(s, input, n, Apply, r.value.1) && AskedAt(s, input, n, Clear, r.value.2)
  {
    if !Processed(s.strategies[n]) { return Some((s.strategies[n], {}, {})); }
    var cs := Candidates(s, input, n);
    var decided := DecideStrategy(s.strategies[n], cs);
    if decided.None? { return None; }
    var (decisions, t, changed) := decided.value;
    var applied, cleared := HoldsAsked(s.strategies[n].members, cs, decisions);
    r := Some((t, applied, cleared));
  }

  lemma HoldsExactly(s: Site, input: RunInput, o: Outcome)
    requires |s.strategies| == |input.entries| && Progress(s, input, |s.strategies|, o)
    ensures (s.holds - (o.cleared - o.applied)) + o.applied == HoldsAfter(s, input)
  {
    forall r, h | AsksBefore(s, input, |s.strategies|, r, h) ensures Asks(s, input, r, h) && r in Mentioned(input.entries) {
      assert Asks(s, input, r, h);
      AskedMentioned(s, input, r, h);
    }
    forall r, h | Asks(s, input, r, h) ensures AsksBefore(s, input, |s.strategies|, r, h) { }
    forall r ensures r in o.applied <==> Asks(s, input, r, Apply) { }
    forall r ensures r in o.cleared <==> Asks(s, input, r, Clear) { }
  }

  /** The strategies and holds of a site as stored. */
  class SiteRecord {
    var strategies: seq<Strategy>
    var holds: set<nat>

    ghost function State(): Site
      reads this
    {
      Site(strategies, holds)
    }

    /** One scheduled run: everything is decided first, then strategies and holds change together or not at all. */
    method Process(input: RunInput)
      requires WellFormed(State(), input)
      modifies this
      ensures State() == AfterRun(old(State()), input)
    {
      if !input.ready { return; }
      var s := Site(strategies, holds);
      var o, n := Outcome([], {}, {}, false), 0;
      while n < |s.strategies|
        invariant n <= |s.strategies| && Progress(s, input, n, o)
        invariant State() == s
      {
        var one := DecideOne(s, input, n);
        if one.None? { return; }
        var (t, applied, cleared) := one.value;
        ProgressStep(s, input, n, o, t, applied, cleared);
        o := Outcome(o.strategies + [t], o.applied + applied, o.cleared + cleared, o.changed || t != s.strategies[n]);
        n := n + 1;
      }
      HoldsExactly(s, input, o);
      assert o.strategies == StrategiesAfter(s, input) && s.strategies[..n] == s.strategies;
      var after := (s.holds - (o.cleared - o.applied)) + o.applied;
      if !o.changed && after == s.holds { return; }
      if !input.accepted { return; }
      strategies, holds := o.strategies, after;
    }
  }
}
