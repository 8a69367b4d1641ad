/** Automatic membership: decisions per candidate, strategies, holds, and whole runs. */
module Automation {
  import opened Wrappers
  import opened Text
  import opened Sequences
  import opened Advice

  datatype ModelAdvice = ModelAdvice(model: string, snapshot: nat, action: Action, reasons: set<string>, hard: set<string>)

  datatype HoldAction = NoHold | Apply | Clear

  datatype Act = DoJoin | DoKeep | DoExit | DoExclude | DoWatch | DoRecover

  datatype Decision = Decision(act: Act, target: bool, hold: HoldAction, reasons: set<string>)

  // ---------- one candidate ----------

  predicate AllJoin(models: seq<ModelAdvice>) { forall i :: 0 <= i < |models| ==> models[i].action == Join }

  predicate AnyExit(models: seq<ModelAdvice>) { exists i :: 0 <= i < |models| && models[i].action == Exit }

  predicate AnyExclude(models: seq<ModelAdvice>) { exists i :: 0 <= i < |models| && models[i].action == Exclude }

  function NameOf(m: ModelAdvice): string { Trim(m.model) }

  /** Every model is named, has its snapshot, and appears once. */
  predicate Wellformed(models: seq<ModelAdvice>) {
    && (forall i :: 0 <= i < |models| ==> NameOf(models[i]) != "" && models[i].snapshot != 0)
    && forall i, j :: 0 <= i < j < |models| ==> NameOf(models[i]) != NameOf(models[j])
  }

  predicate ValidModels(models: seq<ModelAdvice>) { models != [] && Wellformed(models) }

  function Names(models: seq<ModelAdvice>): set<string> { set i | 0 <= i < |models| :: NameOf(models[i]) }

  function ReasonsOf(models: seq<ModelAdvice>): set<string> {
    if models == [] then {} else ReasonsOf(models[..|models| - 1]) + ModelReasons(models[|models| - 1])
  }

  /** Reasons of the advice are trimmed, those of hard gates are codes already. */
  function ModelReasons(m: ModelAdvice): set<string> { (set x | x in m.reasons :: Trim(x)) + m.hard }

  function Verdict(member: bool, held: bool, join: bool, exit: bool, exclude: bool): (Act, bool, HoldAction) {
    if exclude then (DoExclude, false, if held then NoHold else Apply)
    else if held then if join then (DoRecover, true, Clear) else (DoWatch, false, NoHold)
    else if member then if exit then (DoExit, false, NoHold) else (DoKeep, true, NoHold)
    else if join then (DoJoin, true, NoHold) else (DoWatch, false, NoHold)
  }

  function Decide(member: bool, held: bool, models: seq<ModelAdvice>): Option<Decision> {
    if !ValidModels(models) then None
    else
      var v := Verdict(member, held, AllJoin(models), AnyExit(models), AnyExclude(models));
      var reasons := ReasonsOf(models) - {""};
      Some(Decision(v.0, v.1, v.2, if AnyExclude(models) && reasons == {} then {"hard_gate_failed"} else reasons))
  }

  // ---------- what the advice of the models leads to ----------

  /** Some model gives the reason. */
  predicate Gives(models: seq<ModelAdvice>, reason: string) {
    reason != "" && exists m <- models :: reason in m.hard || exists x <- m.reasons :: Trim(x) == reason
  }

  /** The decision in every case, by what the models advise. */
  ghost predicate DecisionSays(member: bool, held: bool, models: seq<ModelAdvice>, d: Decision) {
    var excluded := exists m <- models :: m.action == Exclude;
    var leaving := exists m <- models :: m.action == Exit;
    var joining := forall m <- models :: m.action == Join;
    && (excluded ==> d.act == DoExclude && !d.target && d.hold == if held then NoHold else Apply)
    && (!excluded && held && joining ==> d.act == DoRecover && d.target && d.hold == Clear)
    && (!excluded && held && !joining ==> d.act == DoWatch && !d.target && d.hold == NoHold)
    && (!excluded && !held && member && leaving ==> d.act == DoExit && !d.target && d.hold == NoHold)
    && (!excluded && !held && member && !leaving ==> d.act == DoKeep && d.target && d.hold == NoHold)
    && (!excluded && !held && !member && joining ==> d.act == DoJoin && d.target && d.hold == NoHold)
    && (!excluded && !held && !member && !joining ==> d.act == DoWatch && !d.target && d.hold == NoHold)
    && (forall r <- d.reasons :: Gives(models, r) || (excluded && r == "hard_gate_failed"))
    && (forall r :: Gives(models, r) ==> r in d.reasons)
    && ("hard_gate_failed" in d.reasons ==>
          Gives(models, "hard_gate_failed") || (excluded && d.reasons == {"hard_gate_failed"}))
    && (excluded ==> d.reasons != {})
  }

  lemma {:induction false} ReasonsGiven(models: seq<ModelAdvice>)
    ensures forall r :: r in ReasonsOf(models) - {""} <==> Gives(models, r)
  {
    if models != [] {
      var n := |models| - 1;
      ReasonsGiven(models[..n]);
      assert models == models[..n] + [models[n]];
      forall r ensures r in ReasonsOf(models) - {""} <==> Gives(models, r) {
        assert r != "" ==> (r in ReasonsOf(models[..n]) <==> Gives(models[..n], r));
      }
    }
  }

  lemma ActionsSay(models: seq<ModelAdvice>)
    ensures AllJoin(models) <==> forall m <- models :: m.action == Join
    ensures AnyExit(models) <==> exists m <- models :: m.action == Exit
    ensures AnyExclude(models) <==> exists m <- models :: m.action == Exclude
  {
    forall i | 0 <= i < |models| ensures models[i] in models { }
  }

  /** At least one model; every one named, with its snapshot, and none twice. */
  ghost predicate WellAdvised(models: seq<ModelAdvice>) {
    && models != [] && (forall m <- models :: !Blank(m.model) && m.snapshot != 0)
    && forall i, j :: 0 <= i < j < |models| ==> Trim(models[i].model) != Trim(models[j].model)
  }

  /** A decision is made for named models with a snapshot, each once, and is the one their advice leads to. */
  lemma DecideExactly(member: bool, held: bool, models: seq<ModelAdvice>)
    ensures Decide(member, held, models).Some? <==> WellAdvised(models)
    ensures Decide(member, held, models).Some? ==> DecisionSays(member, held, models, Decide(member, held, models).value)
  {
    AdvisedExactly(models);
    if ValidModels(models) { DecidedSays(member, held, models); }
  }

  lemma DecidedSays(member: bool, held: bool, models: seq<ModelAdvice>)
    requires ValidModels(models)
    ensures DecisionSays(member, held, models, Decide(member, held, models).value)
  {
    ActionsSay(models);
    ReasonsGiven(models);
    assert models[0] in models;
  }

  lemma AdvisedExactly(models: seq<ModelAdvice>)
    ensures ValidModels(models) <==> WellAdvised(models)
  {
    forall m | m in models ensures NameOf(m) != "" <==> !Blank(m.model) { TrimEmpty(m.model); }
    if WellAdvised(models) {
      forall i | 0 <= i < |models| ensures NameOf(models[i]) != "" && models[i].snapshot != 0 { assert models[i] in models; }
    }
    if Wellformed(models) {
      forall i, j | 0 <= i < j < |models| ensures Trim(models[i].model) != Trim(models[j].model) {
        assert NameOf(models[i]) != NameOf(models[j]);
      }
    }
  }

  lemma {:induction false} TrimEmpty(s: string)
    ensures Trim(s) == "" <==> Blank(s)
  {
    TrimLeftEmpty(s);
    TrimRightKeeps(TrimLeft(s));
  }

  lemma {:induction false} TrimLeftEmpty(s: string)
    ensures TrimLeft(s) == "" <==> Blank(s)
    ensures TrimLeft(s) != "" ==> !IsSpace(TrimLeft(s)[0])
  {
    if s != "" && IsSpace(s[0]) {
      TrimLeftEmpty(s[1..]);
      assert Blank(s) ==> Blank(s[1..]) by { if Blank(s) { forall i | 0 <= i < |s| - 1 ensures IsSpace(s[1..][i]) { assert s[1..][i] == s[i + 1]; } } }
      assert Blank(s[1..]) ==> Blank(s) by {
        if Blank(s[1..]) { forall i | 0 <= i < |s| ensures IsSpace(s[i]) { if i > 0 { assert s[i] == s[1..][i - 1]; } } }
      }
    }
  }

  lemma {:induction false} TrimRightKeeps(s: string)
    ensures s != "" && !IsSpace(s[0]) ==> TrimRight(s) != ""
  {
    if s != "" && !IsSpace(s[0]) && IsSpace(s[|s| - 1]) { TrimRightKeeps(s[..|s| - 1]); }
  }

  lemma WellformedSnoc(models: seq<ModelAdvice>, m: ModelAdvice)
    ensures Wellformed(models + [m]) <==> Wellformed(models) && NameOf(m) != "" && m.snapshot != 0 && NameOf(m) !in Names(models)
    ensures Names(models + [m]) == Names(models) + {NameOf(m)}
  {
    var all := models + [m];
    assert all[|models|] == m;
    assert forall i :: 0 <= i < |models| ==> all[i] == models[i];
    if Wellformed(all) {
      forall i, j | 0 <= i < j < |models| ensures NameOf(models[i]) != NameOf(models[j]) {
        assert NameOf(all[i]) != NameOf(all[j]);
      }
      forall i | 0 <= i < |models| ensures NameOf(models[i]) != NameOf(m) { assert NameOf(all[i]) != NameOf(all[|models|]); }
    }
  }

  lemma WellformedPrefix(models: seq<ModelAdvice>, n: nat)
    requires n <= |models|
    ensures Wellformed(models) ==> Wellformed(models[..n])
  {
    if Wellformed(models) {
      forall i | 0 <= i < n ensures NameOf(models[..n][i]) != "" && models[..n][i].snapshot != 0 {
        assert models[..n][i] == models[i];
      }
      forall i, j | 0 <= i < j < n ensures NameOf(models[..n][i]) != NameOf(models[..n][j]) {
        assert models[..n][i] == models[i] && models[..n][j] == models[j];
      }
    }
  }

  datatype Flags = Flags(join: bool, exit: bool, exclude: bool, reasons: set<string>)

  function FlagsOf(models: seq<ModelAdvice>): Flags {
    Flags(AllJoin(models), AnyExit(models), AnyExclude(models), ReasonsOf(models))
  }

  /** One pass over the models; the first invalid one ends it. */
  method ScanModels(models: seq<ModelAdvice>) returns (r: Option<Flags>)
    ensures r == if Wellformed(models) then Some(FlagsOf(models)) else None
  {
    var seen: set<string>, flags, i := {}, Flags(true, false, false, {}), 0;
    while i < |models|
      invariant i <= |models| && Wellformed(models[..i]) && seen == Names(models[..i]) && flags == FlagsOf(models[..i])
    {
      var m := models[i];
      assert models[..i + 1] == models[..i] + [m];
      WellformedSnoc(models[..i], m);
      if NameOf(m) == "" || m.snapshot == 0 || NameOf(m) in seen {
        WellformedPrefix(models, i + 1);
        return None;
      }
      FlagsSnoc(models[..i], m);
      seen := seen + {NameOf(m)};
      flags := Flags(flags.join && m.action == Join, flags.exit || m.action == Exit,
                     flags.exclude || m.action == Exclude, flags.reasons + ModelReasons(m));
      i := i + 1;
    }
    assert models[..i] == models;
    r := Some(flags);
  }

  method MakeDecision(member: bool, held: bool, models: seq<ModelAdvice>) returns (r: Option<Decision>)
    ensures r == Decide(member, held, models)
    ensures r.Some? <==> WellAdvised(models)
    ensures r.Some? ==> DecisionSays(member, held, models, r.value)
  {
    DecideExactly(member, held, models);
    if models == [] { return None; }
    var flags := ScanModels(models);
    if flags.None? { return None; }
    var f := flags.value;
    var v := Verdict(member, held, f.join, f.exit, f.exclude);
    var reasons := f.reasons - {""};
    if f.exclude && reasons == {} { reasons := {"hard_gate_failed"}; }
    r := Some(Decision(v.0, v.1, v.2, reasons));
  }

  lemma FlagsSnoc(models: seq<ModelAdvice>, m: ModelAdvice)
    ensures AllJoin(models + [m]) <==> AllJoin(models) && m.action == Join
    ensures AnyExit(models + [m]) <==> AnyExit(models) || m.action == Exit
    ensures AnyExclude(models + [m]) <==> AnyExclude(models) || m.action == Exclude
    ensures ReasonsOf(models + [m]) == ReasonsOf(models) + ModelReasons(m)
  {
    var all := models + [m];
    assert all[|models|] == m && all[..|models|] == models;
    assert forall i :: 0 <= i < |models| ==> all[i] == models[i];
  }

  // ---------- one strategy ----------

  datatype Candidate = Candidate(relation: nat, member: bool, held: bool, models: seq<ModelAdvice>)

  datatype Strategy = Strategy(enabled: bool, automatic: bool, visible: bool, closed: bool, members: set<nat>)

  predicate CandidatesDistinct(cs: seq<Candidate>) {
    forall i, j :: 0 <= i < j < |cs| ==> cs[i].relation != cs[j].relation
  }

  function Relations(cs: seq<Candidate>): set<nat> { set i | 0 <= i < |cs| :: cs[i].relation }

  predicate Decidable(cs: seq<Candidate>) { forall i :: 0 <= i < |cs| ==> ValidModels(cs[i].models) }

  /** The decision about a candidate, given the members before the run. */
  function DecisionOf(members: set<nat>, c: Candidate): Decision
    requires ValidModels(c.models)
  {
    Decide(c.relation in members, c.held, c.models).value
  }

  /** The candidates a choice picks. */
  function Chosen(wanted: Candidate -> bool, cs: seq<Candidate>): set<nat> {
    set i | 0 <= i < |cs| && wanted(cs[i]) :: cs[i].relation
  }

  /** Candidates stay or go as the choice says; everyone else stays. */
  function Choose(wanted: Candidate -> bool, members: set<nat>, cs: seq<Candidate>): set<nat> {
    (members - Relations(cs)) + Chosen(wanted, cs)
  }

  /** Whether a candidate is to be a member, given the members before the run. */
  function Wants(members: set<nat>): Candidate -> bool {
    (c: Candidate) => ValidModels(c.models) && Decide(c.relation in members, c.held, c.models).value.target
  }

  function NewMembers(members: set<nat>, cs: seq<Candidate>): set<nat> { Choose(Wants(members), members, cs) }

  lemma ChooseSnoc(wanted: Candidate -> bool, members: set<nat>, cs: seq<Candidate>, c: Candidate)
    requires c.relation !in Relations(cs)
    ensures Choose(wanted, members, cs + [c]) ==
            if wanted(c) then Choose(wanted, members, cs) + {c.relation} else Choose(wanted, members, cs) - {c.relation}
    ensures c.relation in Choose(wanted, members, cs) <==> c.relation in members
  {
    var all := cs + [c];
    assert all[|cs|] == c && forall i :: 0 <= i < |cs| ==> all[i] == cs[i];
    assert Relations(all) == Relations(cs) + {c.relation};
    assert Chosen(wanted, all) == Chosen(wanted, cs) + if wanted(c) then {c.relation} else {};
    assert Chosen(wanted, cs) <= Relations(cs);
  }

  lemma ChooseMember(wanted: Candidate -> bool, members: set<nat>, cs: seq<Candidate>, k: nat)
    requires CandidatesDistinct(cs) && k < |cs|
    ensures cs[k].relation in Choose(wanted, members, cs) <==> wanted(cs[k])
  {
    assert cs[k].relation in Relations(cs);
  }

  /** The order of the candidates does not matter. */
  lemma NewMembersOrder(members: set<nat>, a: seq<Candidate>, b: seq<Candidate>)
    requires multiset(a) == multiset(b)
    ensures NewMembers(members, a) == NewMembers(members, b)
  {
    assert forall x :: x in a <==> x in multiset(a);
    assert forall x :: x in b <==> x in multiset(b);
    forall i | 0 <= i < |b| ensures b[i] in a { assert b[i] in multiset(b); }
    forall i | 0 <= i < |a| ensures a[i] in b { assert a[i] in multiset(a); }
    assert Relations(a) == Relations(b);
    assert Chosen(Wants(members), a) == Chosen(Wants(members), b);
  }

  /** An entry is closed when nobody is left and reopened when somebody is back. */
  function Entry(s: Strategy, members: set<nat>): (bool, bool) {
    if members == {} && s.visible then (false, true)
    else if members != {} && s.closed then (true, false)
    else (s.visible, s.closed)
  }

  function Updated(s: Strategy, cs: seq<Candidate>): Strategy {
    var members := NewMembers(s.members, cs);
    s.(members := members, visible := Entry(s, members).0, closed := Entry(s, members).1)
  }

  /** The candidates were loaded from the strategy. */
  predicate Loaded(s: Strategy, cs: seq<Candidate>) { forall i :: 0 <= i < |cs| ==> cs[i].member == (cs[i].relation in s.members) }

  function DecisionsOf(members: set<nat>, cs: seq<Candidate>): (ds: seq<Decision>)
    requires Decidable(cs)
    ensures |ds| == |cs|
  {
    seq(|cs|, i requires 0 <= i < |cs| => DecisionOf(members, cs[i]))
  }

  lemma FreshRelation(cs: seq<Candidate>, i: nat)
    requires i < |cs| && CandidatesDistinct(cs)
    ensures cs[i].relation !in Relations(cs[..i]) && cs[..i + 1] == cs[..i] + [cs[i]]
  {
    forall k | 0 <= k < i ensures cs[..i][k].relation != cs[i].relation { assert cs[..i][k] == cs[k]; }
  }

  /** Adds and removes candidates one by one in the evolving member set. */
  method DecideCandidates(s: Strategy, cs: seq<Candidate>) returns (r: Option<(seq<Decision>, set<nat>, bool)>)
    requires CandidatesDistinct(cs) && Loaded(s, cs)
    ensures r.Some? <==> Decidable(cs)
    ensures r.Some? ==>
              && r.value.0 == DecisionsOf(s.members, cs) && r.value.1 == NewMembers(s.members, cs)
              && (r.value.2 <==> SomeDiffers(s.members, cs))
  {
    var members, decisions, changed, i := s.members, [], false, 0;
    while i < |cs|
      invariant i <= |cs| && Decidable(cs[..i])
      invariant members == NewMembers(s.members, cs[..i]) && decisions == DecisionsOf(s.members, cs[..i])
      invariant changed == SomeDiffers(s.members, cs[..i])
    {
      var c := cs[i];
      FreshRelation(cs, i);
      ChooseSnoc(Wants(s.members), s.members, cs[..i], c);
      var decision := MakeDecision(c.relation in members, c.held, c.models);
      if decision.None? { return None; }
      DecidedSnoc(s.members, cs[..i], c);
      members := if decision.value.target then members + {c.relation} else members - {c.relation};
      if decision.value.target != c.member { changed := true; }
      decisions := decisions + [decision.value];
      i := i + 1;
    }
    assert cs[..i] == cs;
    r := Some((decisions, members, changed));
  }

  /**
   Decides the candidates and then the entry. The result is the same as deciding all of
   them against the members before the run, and a change is reported exactly when the
   strategy changed.
   */
  method DecideStrategy(s: Strategy, cs: seq<Candidate>) returns (r: Option<(seq<Decision>, Strategy, bool)>)
    requires CandidatesDistinct(cs) && Loaded(s, cs)
    ensures r.Some? <==> Decidable(cs)
    ensures r.Some? ==>
              && r.value.0 == DecisionsOf(s.members, cs) && r.value.1 == Updated(s, cs)
              && (r.value.2 <==> Updated(s, cs) != s)
  {
    var decided := DecideCandidates(s, cs);
    if decided.None? { return None; }
    var (decisions, members, changed) := decided.value;
    var visible, closed := s.visible, s.closed;
    if members == {} && s.visible {
      visible, closed, changed := false, true, true;
    } else if members != {} && s.closed {
      visible, closed, changed := true, false, true;
    }
    ChangedExactly(s, cs);
    r := Some((decisions, s.(members := members, visible := visible, closed := closed), changed || members != s.members));
  }

  ghost predicate SomeDiffers(members: set<nat>, cs: seq<Candidate>)
    requires Decidable(cs)
  {
    exists k :: 0 <= k < |cs| && Differs(members, cs[k])
  }

  predicate Differs(members: set<nat>, c: Candidate)
    requires ValidModels(c.models)
  {
    DecisionOf(members, c).target != (c.relation in members)
  }

  lemma DecidedSnoc(members: set<nat>, cs: seq<Candidate>, c: Candidate)
    requires Decidable(cs) && ValidModels(c.models)
    ensures Decidable(cs + [c])
    ensures DecisionsOf(members, cs + [c]) == DecisionsOf(members, cs) + [DecisionOf(members, c)]
    ensures SomeDiffers(members, cs + [c]) <==> SomeDiffers(members, cs) || Differs(members, c)
  {
    var all := cs + [c];
    assert all[|cs|] == c && forall i :: 0 <= i < |cs| ==> all[i] == cs[i];
    if SomeDiffers(members, cs) {
      var k :| 0 <= k < |cs| && Differs(members, cs[k]);
      assert Differs(members, all[k]);
    }
  }

  lemma ChangedExactly(s: Strategy, cs: seq<Candidate>)
    requires Decidable(cs) && CandidatesDistinct(cs)
    ensures NewMembers(s.members, cs) != s.members <==> SomeDiffers(s.members, cs)
  {
    forall k: nat | k < |cs| ensures Differs(s.members, cs[k]) <==> (cs[k].relation in NewMembers(s.members, cs)) != (cs[k].relation in s.members) {
      ChooseMember(Wants(s.members), s.members, cs, k);
    }
    if NewMembers(s.members, cs) != s.members {
      var x :| (x in NewMembers(s.members, cs)) != (x in s.members);
      assert x in Relations(cs) || x in Chosen(Wants(s.members), cs);
      var k :| 0 <= k < |cs| && cs[k].relation == x;
      assert Differs(s.members, cs[k]);
    }
  }

  /** Whether an entry is offered at all is not for automation to decide: only whether it is open. */
  lemma EntryFollowsMembers(s: Strategy, cs: seq<Candidate>)
    ensures var t := Updated(s, cs);
            && (t.visible || t.closed <==> s.visible || s.closed)
            && (t.visible <==> (s.visible || s.closed) && t.members != {})
            && (t.closed <==> (s.visible || s.closed) && t.members == {})
            && t.enabled == s.enabled && t.automatic == s.automatic
  {
  }
}
