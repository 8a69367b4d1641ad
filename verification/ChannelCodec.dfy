/** How a desired channel is written to the remote site, read back and compared. */
module ChannelCodec {
  import opened Wrappers
  import opened Text
  import opened Sequences
  import opened NameLists

  const PROTOCOL := "openai_compatible"
  const OPENAI_TYPE := 1

  datatype ModelRoute = ModelRoute(model: string, upstream: string)

  datatype Desired = Desired(
    tag: string, name: string, protocol: string, baseUrl: string, models: seq<ModelRoute>,
    groupKey: string, extraGroups: seq<string>, priority: int, weight: nat,
    enabled: bool, credential: (nat, nat))

  /** The remote channel record as sent; the status is absent from an update. */
  datatype Payload = Payload(
    kind: int, tag: string, name: string, baseUrl: string, models: string, group: string,
    mapping: map<string, string>, priority: int, weight: nat)

  /** What the remote channel is configured to be, as read. */
  datatype Config = Config(
    name: string, protocol: string, baseUrl: string, models: seq<string>, mapping: map<string, string>,
    groups: seq<string>, priority: int, weight: nat)

  function ModelName(m: ModelRoute): string { m.model }

  function ModelNames(d: Desired): (names: seq<string>)
    ensures |names| == |d.models| && forall i :: 0 <= i < |names| ==> names[i] == d.models[i].model
  {
    Map(ModelName, d.models)
  }

  /** The routes that rename a model. */
  function Mapping(models: seq<ModelRoute>): map<string, string> {
    if models == [] then map[]
    else
      var before, m := Mapping(models[..|models| - 1]), models[|models| - 1];
      if m.model != m.upstream then before[m.model := m.upstream] else before
  }

  function GroupKeys(d: Desired): seq<string> { Compact(SortNames([d.groupKey] + d.extraGroups)) }

  function Write(d: Desired): Option<Payload> {
    if d.protocol != PROTOCOL then None
    else Some(Payload(
      OPENAI_TYPE, d.tag, d.name, d.baseUrl, CommaJoined(SortNames(ModelNames(d))), CommaJoined(GroupKeys(d)),
      Mapping(d.models), d.priority, d.weight))
  }

  function TrimSlashes(s: string): string {
    if s != [] && s[|s| - 1] == '/' then TrimSlashes(s[..|s| - 1]) else s
  }

  function Read(p: Payload): Config {
    Config(
      p.name, if p.kind == OPENAI_TYPE then PROTOCOL else "unknown", TrimSlashes(p.baseUrl),
      ReadNames(p.models), p.mapping, ReadNames(p.group), p.priority, p.weight)
  }

  /** Equality of maps, where an absent key reads as the empty text. */
  predicate MapsEqual(left: map<string, string>, right: map<string, string>) {
    && |left| == |right|
    && forall k <- left :: (if k in right then right[k] else "") == left[k]
  }

  predicate Matches(d: Desired, tag: string, c: Config) {
    && d.tag == tag && d.name == c.name && d.protocol == c.protocol && d.baseUrl == c.baseUrl
    && d.priority == c.priority && d.weight == c.weight
    && SortNames(ModelNames(d)) == SortNames(c.models)
    && MapsEqual(Mapping(d.models), c.mapping)
    && GroupKeys(d) == SortNames(c.groups)
  }

  /** The parts of snapshot validation that concern the channel. */
  predicate ValidDesired(d: Desired) {
    && d.protocol == PROTOCOL
    && (d.baseUrl != "" ==> d.baseUrl[|d.baseUrl| - 1] != '/')
    && d.models != []
    && (forall i :: 0 <= i < |d.models| ==> ValidRoute(d.models[i]))
    && (forall i :: 0 < i < |d.models| ==> CompareText(d.models[i - 1].model, d.models[i].model) < 0)
    && d.groupKey != "" && ',' !in d.groupKey
    && (forall i :: 0 <= i < |d.extraGroups| ==>
          d.extraGroups[i] != "" && d.extraGroups[i] != d.groupKey && ',' !in d.extraGroups[i])
    && forall i :: 0 < i < |d.extraGroups| ==> CompareText(d.extraGroups[i - 1], d.extraGroups[i]) < 0
  }

  predicate ValidRoute(m: ModelRoute) { !Blank(m.model) && !Blank(m.upstream) && ',' !in m.model && ',' !in m.upstream }

  // ---------- the renamings ----------

  /** The last route that renames the model. */
  predicate LastRenaming(models: seq<ModelRoute>, k: string, i: nat) {
    && i < |models| && models[i].model == k && models[i].upstream != k
    && forall j :: i < j < |models| && models[j].model == k ==> models[j].upstream == k
  }

  /** An entry for every model that some route renames, to where the last such route goes; no others. */
  ghost predicate Renames(models: seq<ModelRoute>, mapping: map<string, string>) {
    && (forall k <- mapping :: exists i: nat :: LastRenaming(models, k, i))
    && forall k: string, i: nat :: LastRenaming(models, k, i) ==> k in mapping && mapping[k] == models[i].upstream
  }

  lemma LastRenamingSnoc(models: seq<ModelRoute>, m: ModelRoute, k: string, i: nat)
    ensures LastRenaming(models + [m], k, i) <==>
            if i == |models| then m.model == k && m.upstream != k
            else LastRenaming(models, k, i) && (m.model == k ==> m.upstream == k)
  {
    var all := models + [m];
    assert all[|models|] == m;
    if LastRenaming(all, k, i) {
      forall j | i < j < |models| && models[j].model == k ensures models[j].upstream == k { assert all[j] == models[j]; }
    }
  }

  lemma {:induction false} MappingExactly(models: seq<ModelRoute>)
    ensures Renames(models, Mapping(models))
  {
    if models != [] {
      var n := |models| - 1;
      var m := models[n];
      MappingExactly(models[..n]);
      assert models == models[..n] + [m];
      forall k: string, i: nat ensures LastRenaming(models, k, i) <==>
            if i == n then m.model == k && m.upstream != k
            else LastRenaming(models[..n], k, i) && (m.model == k ==> m.upstream == k)
      {
        LastRenamingSnoc(models[..n], m, k, i);
      }
      forall k | k in Mapping(models) ensures exists i: nat :: LastRenaming(models, k, i) {
        if m.model == k && m.upstream != k {
          assert LastRenaming(models, k, n);
        } else {
          var i: nat :| LastRenaming(models[..n], k, i);
          assert LastRenaming(models, k, i);
        }
      }
    }
  }

  lemma RenamesOnce(models: seq<ModelRoute>, a: map<string, string>, b: map<string, string>)
    requires Renames(models, a) && Renames(models, b)
    ensures a == b
  {
    forall k | k in a ensures k in b && b[k] == a[k] {
      var i: nat :| LastRenaming(models, k, i);
    }
    forall k | k in b ensures k in a {
      var i: nat :| LastRenaming(models, k, i);
    }
  }

  ghost predicate ModelsDistinct(models: seq<ModelRoute>) {
    forall i, j :: 0 <= i < j < |models| ==> models[i].model != models[j].model
  }

  /** An entry for every route that renames its model, and no others. */
  ghost predicate RenamesEach(models: seq<ModelRoute>, mapping: map<string, string>) {
    && (forall m <- models :: m.model in mapping <==> m.upstream != m.model)
    && (forall m <- models :: m.model in mapping ==> mapping[m.model] == m.upstream)
    && forall k <- mapping :: exists m <- models :: m.model == k
  }

  /** Where every model has one route, the entries are those of the routes. */
  lemma RenamesDistinct(models: seq<ModelRoute>, mapping: map<string, string>)
    requires ModelsDistinct(models)
    ensures Renames(models, mapping) <==> RenamesEach(models, mapping)
  {
    forall i: nat | i < |models| ensures LastRenaming(models, models[i].model, i) <==> models[i].upstream != models[i].model { }
    if Renames(models, mapping) {
      forall m | m in models
        ensures (m.model in mapping <==> m.upstream != m.model) && (m.model in mapping ==> mapping[m.model] == m.upstream)
      {
        var i: nat :| i < |models| && models[i] == m;
        if m.model in mapping {
          var j: nat :| LastRenaming(models, m.model, j);
          assert i == j;
        }
      }
      forall k | k in mapping ensures exists m <- models :: m.model == k {
        var i: nat :| LastRenaming(models, k, i);
        assert models[i] in models;
      }
    }
    if RenamesEach(models, mapping) {
      forall k | k in mapping ensures exists i: nat :: LastRenaming(models, k, i) {
        var m :| m in models && m.model == k;
        var i: nat :| i < |models| && models[i] == m;
        assert LastRenaming(models, k, i);
      }
    }
  }

  // ---------- meaning of the comparison ----------

  lemma SubmapEqual(left: map<string, string>, right: map<string, string>)
    requires |left| == |right| && forall k <- left :: k in right && right[k] == left[k]
    ensures left == right
  {
    var a, b := left.Keys, right.Keys;
    assert a <= b && |a| == |left| && |b| == |right|;
    SubsetEqual(a, b);
  }

  lemma SubsetEqual(a: set<string>, b: set<string>)
    requires a <= b && |a| == |b|
    ensures a == b
  {
    assert |b - a| == |b| - |a|;
    assert b - a == {};
  }

  /** The comparison is exact although absent keys read as empty: no desired upstream name is empty. */
  lemma MapsEqualExact(d: Desired, actual: map<string, string>)
    requires ValidDesired(d)
    ensures MapsEqual(Mapping(d.models), actual) <==> Mapping(d.models) == actual
  {
    var want := Mapping(d.models);
    if MapsEqual(want, actual) {
      MappingExactly(d.models);
      forall k | k in want ensures k in actual && actual[k] == want[k] {
        var i: nat :| LastRenaming(d.models, k, i);
        assert ValidRoute(d.models[i]);
        assert d.models[i].upstream != "";
      }
      SubmapEqual(want, actual);
    }
  }

  lemma {:induction false} ChainApart(names: seq<string>, i: nat, j: nat)
    requires i < j < |names| && forall k :: 0 < k < |names| ==> CompareText(names[k - 1], names[k]) < 0
    ensures CompareText(names[i], names[j]) < 0
    decreases j - i
  {
    if i < j - 1 {
      ChainApart(names, i, j - 1);
      CompareTransitive(names[i], names[j - 1], names[j]);
      CompareAntisymmetric(names[i], names[j]);
      CompareAntisymmetric(names[j - 1], names[j]);
    }
  }

  lemma ChainDistinct(names: seq<string>)
    requires forall k :: 0 < k < |names| ==> CompareText(names[k - 1], names[k]) < 0
    ensures NoDup(names)
  {
    forall i, j | 0 <= i < j < |names| ensures names[i] != names[j] {
      ChainApart(names, i, j);
      CompareAntisymmetric(names[i], names[j]);
    }
  }

  /** The groups of a valid channel are its own group and its extra groups, once each. */
  lemma GroupKeysExact(d: Desired)
    requires ValidDesired(d)
    ensures GroupKeys(d) == SortNames([d.groupKey] + d.extraGroups)
  {
    var all := [d.groupKey] + d.extraGroups;
    ChainDistinct(d.extraGroups);
    assert NoDup(all);
    NoDupPermutation(all, SortNames(all));
    CompactDistinct(SortNames(all));
  }

  /** The model names of the routes, in their order. */
  predicate NamesOf(models: seq<ModelRoute>, names: seq<string>) {
    |names| == |models| && forall i :: 0 <= i < |names| ==> names[i] == models[i].model
  }

  /** The fields are equal, lists compared without regard to order, and the channel renames what the routes rename. */
  ghost predicate SameChannel(d: Desired, tag: string, c: Config) {
    && d.tag == tag && d.name == c.name && d.protocol == c.protocol && d.baseUrl == c.baseUrl
    && d.priority == c.priority && d.weight == c.weight
    && (exists names :: NamesOf(d.models, names) && multiset(names) == multiset(c.models))
    && RenamesEach(d.models, c.mapping)
    && multiset([d.groupKey] + d.extraGroups) == multiset(c.groups)
  }

  lemma ValidDistinct(d: Desired)
    requires ValidDesired(d)
    ensures ModelsDistinct(d.models)
  {
    forall i | 0 < i < |d.models| ensures CompareText(ModelNames(d)[i - 1], ModelNames(d)[i]) < 0 { }
    ChainDistinct(ModelNames(d));
  }

  /** A channel matches exactly when it is the same but for the order of its lists. */
  lemma MatchesExact(d: Desired, tag: string, c: Config)
    requires ValidDesired(d)
    ensures Matches(d, tag, c) <==> SameChannel(d, tag, c)
  {
    assert NamesOf(d.models, ModelNames(d));
    assert forall names :: NamesOf(d.models, names) ==> names == ModelNames(d);
    ValidDistinct(d);
    MappingExactly(d.models);
    RenamesDistinct(d.models, c.mapping);
    if Renames(d.models, c.mapping) { RenamesOnce(d.models, Mapping(d.models), c.mapping); }
    MapsEqualExact(d, c.mapping);
    SortIsCanonical(ModelNames(d), c.models);
    GroupKeysExact(d);
    SortIsCanonical([d.groupKey] + d.extraGroups, c.groups);
  }

  // ---------- the round trip ----------

  predicate TrimmedNames(d: Desired) { Trimmed(ModelNames(d)) && Trimmed([d.groupKey] + d.extraGroups) }

  lemma MemberRules(a: seq<string>, b: seq<string>)
    requires multiset(a) == multiset(b)
    ensures Trimmed(a) <==> Trimmed(b)
    ensures Nameable(a) <==> Nameable(b)
  {
    assert forall x :: x in a <==> x in multiset(a);
    assert forall x :: x in b <==> x in multiset(b);
    forall i | 0 <= i < |a| ensures a[i] in b { assert a[i] in multiset(a); }
    forall i | 0 <= i < |b| ensures b[i] in a { assert b[i] in multiset(b); }
  }

  lemma SortedListRoundTrip(names: seq<string>)
    requires Nameable(names)
    ensures SortNames(ReadNames(CommaJoined(SortNames(names)))) == SortNames(names) <==> Trimmed(names)
  {
    MemberRules(names, SortNames(names));
    NamesRoundTrip(SortNames(names));
    SortIsCanonical(SortNames(names), names);
  }

  lemma NoSlashes(d: Desired)
    requires ValidDesired(d)
    ensures TrimSlashes(d.baseUrl) == d.baseUrl
  {
  }

  lemma ValidNames(d: Desired)
    requires ValidDesired(d)
    ensures Nameable(ModelNames(d)) && Nameable([d.groupKey] + d.extraGroups)
  {
    forall i | 0 <= i < |d.models| ensures ModelNames(d)[i] != "" && ',' !in ModelNames(d)[i] {
      assert ValidRoute(d.models[i]);
    }
  }

  /**
   Writing a validated channel and reading it back matches exactly when no model or group
   name is padded with white space; padding survives validation and makes every later
   comparison fail.
   */
  lemma WriteReadMatches(d: Desired)
    requires ValidDesired(d)
    ensures Write(d).Some?
    ensures Matches(d, Write(d).value.tag, Read(Write(d).value)) <==> TrimmedNames(d)
  {
    ValidNames(d);
    NoSlashes(d);
    GroupKeysExact(d);
    SortedListRoundTrip(ModelNames(d));
    SortedListRoundTrip([d.groupKey] + d.extraGroups);
    var c := Read(Write(d).value);
    assert c.models == ReadNames(CommaJoined(SortNames(ModelNames(d))));
    assert c.groups == ReadNames(CommaJoined(GroupKeys(d)));
    assert MapsEqual(Mapping(d.models), c.mapping);
  }

  const MAX_NAME := 191

  /** The name kept of what an operator enters for a model. */
  function EnteredName(raw: string): Option<string> {
    var name := Trim(raw);
    if name == "" || |name| > MAX_NAME || ContainsAny(name, ",\r\n") then None else Some(name)
  }

  ghost predicate Entered(name: string) { exists raw :: EnteredName(raw) == Some(name) }

  /** Generated group keys hold no white space. */
  predicate Spaceless(key: string) { forall i :: 0 <= i < |key| ==> !IsSpace(key[i]) }

  lemma EnteredTrimmed(name: string)
    requires Entered(name)
    ensures Trim(name) == name
  {
    var raw :| EnteredName(raw) == Some(name);
    TrimTwice(raw);
  }

  /** The names that can be entered: trimmed, of 1 to 191 bytes, without commas or line breaks. */
  lemma EnteredExactly(name: string)
    ensures Entered(name) <==>
            && Trim(name) == name && 1 <= |name| <= 191
            && forall i :: 0 <= i < |name| ==> name[i] != ',' && name[i] != '\r' && name[i] != '\n'
  {
    if Entered(name) {
      EnteredTrimmed(name);
      var raw :| EnteredName(raw) == Some(name);
      assert !ContainsAny(name, ",\r\n");
      forall i | 0 <= i < |name| ensures name[i] != ',' && name[i] != '\r' && name[i] != '\n' {
        assert name[i] !in ",\r\n";
        assert ',' == ",\r\n"[0] && '\r' == ",\r\n"[1] && '\n' == ",\r\n"[2];
      }
    } else {
      assert EnteredName(name) != Some(name);
    }
  }

  /** For names as they are entered and group keys as they are generated, a written channel always matches. */
  lemma EnteredChannelMatches(d: Desired)
    requires ValidDesired(d) && forall i :: 0 <= i < |d.models| ==> Entered(d.models[i].model)
    requires Spaceless(d.groupKey) && forall i :: 0 <= i < |d.extraGroups| ==> Spaceless(d.extraGroups[i])
    ensures Write(d).Some? && Matches(d, Write(d).value.tag, Read(Write(d).value))
  {
    forall i | 0 <= i < |d.models| ensures Trim(ModelNames(d)[i]) == ModelNames(d)[i] { EnteredTrimmed(d.models[i].model); }
    assert TrimmedNames(d);
    WriteReadMatches(d);
  }

  lemma PaddedText()
    ensures Trim("gpt ") == "gpt"
  {
    assert TrimLeft("gpt ") == "gpt ";
    assert "gpt "[..3] == "gpt";
  }

  /** A valid channel with one padded model name. */
  const PADDED := Desired(
    "manyrouter:1", "Supplier", PROTOCOL, "https://upstream.example", [ModelRoute("gpt ", "gpt ")],
    "mr_s_1", [], 0, 100, true, (1, 1))

  lemma PaddedValid()
    ensures ValidDesired(PADDED)
  {
    assert !Blank("gpt ") by { assert "gpt "[0] == 'g'; }
  }

  lemma PaddedUntrimmed()
    ensures !TrimmedNames(PADDED)
  {
    PaddedText();
    assert ModelNames(PADDED)[0] == "gpt ";
  }

  lemma PaddedNameFails()
    ensures ValidDesired(PADDED) && Write(PADDED).Some?
    ensures !Matches(PADDED, Write(PADDED).value.tag, Read(Write(PADDED).value))
  {
    PaddedValid();
    PaddedUntrimmed();
    WriteReadMatches(PADDED);
  }

  // ---------- the loops ----------

  method SplitCsv(raw: string) returns (names: seq<string>)
    ensures names == ReadNames(raw)
    ensures Sorted(TextLe, names) && multiset(names) == multiset(Clean(Split(raw)))
  {
    TextOrder();
    StableSortSorted(TextLe, Clean(Split(raw)));
    var parts := Split(raw);
    var kept, i := [], 0;
    while i < |parts|
      invariant i <= |parts| && kept == Clean(parts[..i])
    {
      assert parts[..i + 1][..i] == parts[..i];
      var value := Trim(parts[i]);
      if value != "" { kept := kept + [value]; }
      i := i + 1;
    }
    assert parts[..i] == parts;
    names := SortNames(kept);
  }

  /** A comma-separated list of the names, sorted. */
  ghost predicate SortedList(text: string, names: seq<string>) {
    exists sorted :: Sorted(TextLe, sorted) && multiset(sorted) == multiset(names) && text == CommaJoined(sorted)
  }

  /** A comma-separated list of the members, sorted and each once. */
  ghost predicate SortedSet(text: string, members: seq<string>) {
    exists sorted ::
      && Sorted(TextLe, sorted) && NoDup(sorted) && (forall x :: x in sorted <==> x in members)
      && text == CommaJoined(sorted)
  }

  /** The record asks for what the channel is to be. */
  ghost predicate PayloadSays(d: Desired, p: Payload) {
    && p.kind == 1 && p.tag == d.tag && p.name == d.name && p.baseUrl == d.baseUrl
    && p.priority == d.priority && p.weight == d.weight
    && (exists names :: NamesOf(d.models, names) && SortedList(p.models, names))
    && Renames(d.models, p.mapping)
    && SortedSet(p.group, [d.groupKey] + d.extraGroups)
  }

  lemma {:induction false} CompactSorted(s: seq<string>)
    requires Sorted(TextLe, s)
    ensures Sorted(TextLe, Compact(s)) && NoDup(Compact(s))
    ensures s != [] ==> Compact(s) != [] && Compact(s)[|Compact(s)| - 1] == s[|s| - 1]
  {
    if |s| > 1 {
      var n := |s| - 1;
      CompactSorted(s[..n]);
      var before := Compact(s[..n]);
      CompactMembers(s[..n]);
      TextOrder();
      if s[n] != s[n - 1] {
        forall i | 0 <= i < |before| ensures TextLe(before[i], s[n]) && before[i] != s[n] {
          assert before[i] in before;
          var k :| 0 <= k < n && s[..n][k] == before[i];
          assert TextLe(s[k], s[n - 1]) && TextLe(s[n - 1], s[n]);
        }
      }
    }
  }

  lemma GroupKeysSorted(d: Desired)
    ensures SortedSet(CommaJoined(GroupKeys(d)), [d.groupKey] + d.extraGroups)
  {
    var all := [d.groupKey] + d.extraGroups;
    TextOrder();
    StableSortSorted(TextLe, all);
    CompactSorted(SortNames(all));
    CompactMembers(SortNames(all));
    forall x ensures x in GroupKeys(d) <==> x in all {
      assert x in all <==> x in multiset(all);
      assert x in SortNames(all) <==> x in multiset(SortNames(all));
    }
  }

  lemma ModelsSorted(d: Desired)
    ensures NamesOf(d.models, ModelNames(d)) && SortedList(CommaJoined(SortNames(ModelNames(d))), ModelNames(d))
  {
    TextOrder();
    StableSortSorted(TextLe, ModelNames(d));
  }

  lemma WriteSays(d: Desired)
    ensures Write(d).None? <==> d.protocol != "openai_compatible"
    ensures Write(d).Some? ==> PayloadSays(d, Write(d).value)
  {
    MappingExactly(d.models);
    GroupKeysSorted(d);
    ModelsSorted(d);
  }

  /** Model names and renamings, filled in one pass. */
  method Routes(models: seq<ModelRoute>) returns (names: seq<string>, mapping: map<string, string>)
    ensures names == Map(ModelName, models) && mapping == Mapping(models)
  {
    names, mapping := [], map[];
    var i := 0;
    while i < |models|
      invariant i <= |models|
      invariant names == Map(ModelName, models[..i]) && mapping == Mapping(models[..i])
    {
      assert models[..i + 1][..i] == models[..i];
      names := names + [models[i].model];
      if models[i].model != models[i].upstream { mapping := mapping[models[i].model := models[i].upstream]; }
      i := i + 1;
    }
    assert models[..i] == models;
  }

  method BuildPayload(d: Desired) returns (p: Option<Payload>)
    ensures p == Write(d)
    ensures p.None? <==> d.protocol != "openai_compatible"
    ensures p.Some? ==> PayloadSays(d, p.value)
  {
    WriteSays(d);
    if d.protocol != PROTOCOL { return None; }
    var names, mapping := Routes(d.models);
    p := Some(Payload(
      OPENAI_TYPE, d.tag, d.name, d.baseUrl, CommaJoined(SortNames(names)), CommaJoined(GroupKeys(d)), mapping, d.priority, d.weight));
  }

  /** Slashes at the end are dropped, and nothing else. */
  predicate WithoutSlashes(url: string, r: string) {
    && r <= url && (forall i :: |r| <= i < |url| ==> url[i] == '/')
    && (r != "" ==> r[|r| - 1] != '/')
  }

  lemma {:induction false} TrimSlashesExactly(url: string)
    ensures WithoutSlashes(url, TrimSlashes(url))
  {
    if url != [] && url[|url| - 1] == '/' { TrimSlashesExactly(url[..|url| - 1]); }
  }

  method ReadChannel(p: Payload) returns (c: Config)
    ensures c == Read(p)
    ensures c.name == p.name && c.mapping == p.mapping && c.priority == p.priority && c.weight == p.weight
    ensures c.protocol == if p.kind == 1 then "openai_compatible" else "unknown"
    ensures WithoutSlashes(p.baseUrl, c.baseUrl)
    ensures Sorted(TextLe, c.models) && multiset(c.models) == multiset(Clean(Split(p.models)))
    ensures Sorted(TextLe, c.groups) && multiset(c.groups) == multiset(Clean(Split(p.group)))
  {
    TrimSlashesExactly(p.baseUrl);
    var models := SplitCsv(p.models);
    var groups := SplitCsv(p.group);
    c := Config(
      p.name, if p.kind == OPENAI_TYPE then PROTOCOL else "unknown", TrimSlashes(p.baseUrl),
      models, p.mapping, groups, p.priority, p.weight);
  }

  method ConfigurationMatches(d: Desired, tag: string, c: Config) returns (ok: bool)
    ensures ok == Matches(d, tag, c)
    ensures ValidDesired(d) ==> (ok <==> SameChannel(d, tag, c))
  {
    if ValidDesired(d) { MatchesExact(d, tag, c); }
    if d.tag != tag || d.name != c.name || d.protocol != c.protocol || d.baseUrl != c.baseUrl { return false; }
    if d.priority != c.priority || d.weight != c.weight { return false; }
    var names, mapping := Routes(d.models);
    if SortNames(names) != SortNames(c.models) || !MapsEqual(mapping, c.mapping) { return false; }
    ok := GroupKeys(d) == SortNames(c.groups);
  }
}
