/**
 Sorted name lists and their comma-separated encoding. Reading a list back gives the same
 names, for names that are not empty and hold no comma, exactly when none has surrounding spaces.
 */
module NameLists {
  import opened Text
  import opened Sequences

  predicate TextLe(a: string, b: string) { CompareText(a, b) <= 0 }

  lemma TextOrder()
    ensures TotalPreorder(TextLe)
    ensures forall a, b :: TextLe(a, b) && TextLe(b, a) ==> a == b
  {
    forall a, b ensures TextLe(a, b) || TextLe(b, a) { CompareAntisymmetric(a, b); }
    forall a, b, c | TextLe(a, b) && TextLe(b, c) ensures TextLe(a, c) { CompareTransitive(a, b, c); }
    forall a, b | TextLe(a, b) && TextLe(b, a) ensures a == b { CompareAntisymmetric(a, b); }
  }

  function SortNames(names: seq<string>): (r: seq<string>)
    ensures multiset(r) == multiset(names)
  {
    StableSort(TextLe, names)
  }

  lemma LastIsGreatest(a: seq<string>, x: string)
    requires a != [] && Sorted(TextLe, a) && x in a
    ensures TextLe(x, a[|a| - 1])
  {
    TextOrder();
    var k :| 0 <= k < |a| && a[k] == x;
  }

  lemma DropLast(a: seq<string>)
    requires a != []
    ensures multiset(a[..|a| - 1]) == multiset(a) - multiset{a[|a| - 1]} && a[|a| - 1] in a
  {
    assert a == a[..|a| - 1] + [a[|a| - 1]];
  }

  lemma LastsAgree(a: seq<string>, b: seq<string>)
    requires a != [] && b != []
    requires Sorted(TextLe, a) && Sorted(TextLe, b) && multiset(a) == multiset(b)
    ensures a[|a| - 1] == b[|b| - 1]
    ensures multiset(a[..|a| - 1]) == multiset(b[..|b| - 1])
  {
    DropLast(a);
    DropLast(b);
    var x, y := a[|a| - 1], b[|b| - 1];
    assert x in multiset(b) && y in multiset(a);
    LastIsGreatest(b, x);
    LastIsGreatest(a, y);
    CompareAntisymmetric(x, y);
  }

  lemma SortedPrefix(a: seq<string>)
    requires a != [] && Sorted(TextLe, a)
    ensures Sorted(TextLe, a[..|a| - 1])
  {
  }

  /** A sorted list is determined by its members and their multiplicities. */
  lemma {:induction false} SortedUnique(a: seq<string>, b: seq<string>)
    requires Sorted(TextLe, a) && Sorted(TextLe, b) && multiset(a) == multiset(b)
    ensures a == b
    decreases |a|
  {
    assert |a| == |multiset(a)| == |multiset(b)| == |b|;
    if a != [] {
      var n := |a| - 1;
      LastsAgree(a, b);
      SortedPrefix(a);
      SortedPrefix(b);
      SortedUnique(a[..n], b[..n]);
      assert a == a[..n] + [a[n]] && b == b[..n] + [b[n]];
    }
  }

  lemma SortIsCanonical(a: seq<string>, b: seq<string>)
    ensures SortNames(a) == SortNames(b) <==> multiset(a) == multiset(b)
  {
    TextOrder();
    StableSortSorted(TextLe, a);
    StableSortSorted(TextLe, b);
    if multiset(a) == multiset(b) { SortedUnique(SortNames(a), SortNames(b)); }
  }

  // ---------- comma-separated encoding ----------

  predicate NonEmpty(s: string) { s != "" }

  function Clean(parts: seq<string>): seq<string> { Filter(NonEmpty, Map(Trim, parts)) }

  /** What reading a comma-separated list gives. */
  function ReadNames(raw: string): seq<string> { SortNames(Clean(Split(raw))) }

  function TotalLength(names: seq<string>): nat {
    if names == [] then 0 else TotalLength(names[..|names| - 1]) + |names[|names| - 1]|
  }

  lemma {:induction false} TotalLengthConcat(a: seq<string>, b: seq<string>)
    ensures TotalLength(a + b) == TotalLength(a) + TotalLength(b)
  {
    if b == [] {
      assert a + b == a;
    } else {
      TotalLengthConcat(a, b[..|b| - 1]);
      assert (a + b)[..|a + b| - 1] == a + b[..|b| - 1];
    }
  }

  lemma {:induction false} TotalLengthMultiset(a: seq<string>, b: seq<string>)
    requires multiset(a) == multiset(b)
    ensures TotalLength(a) == TotalLength(b)
    decreases |a|
  {
    assert |a| == |multiset(a)| == |multiset(b)| == |b|;
    if a != [] {
      var k := RemoveOne(a, b);
      TotalLengthMultiset(a[..|a| - 1], b[..k] + b[k + 1..]);
      TotalLengthConcat(b[..k], b[k + 1..]);
      TotalLengthConcat(b[..k], [b[k]] + b[k + 1..]);
      TotalLengthConcat([b[k]], b[k + 1..]);
      assert TotalLength([b[k]]) == |b[k]|;
      assert b == b[..k] + ([b[k]] + b[k + 1..]);
    }
  }

  lemma {:induction false} TrimRightShorter(s: string)
    ensures |TrimRight(s)| <= |s| && (|TrimRight(s)| == |s| ==> TrimRight(s) == s)
  {
    if s != [] { TrimRightShorter(s[..|s| - 1]); }
  }

  lemma {:induction false} TrimLeftShorter(s: string)
    ensures |TrimLeft(s)| <= |s| && (|TrimLeft(s)| == |s| ==> TrimLeft(s) == s)
  {
    if s != [] { TrimLeftShorter(s[1..]); }
  }

  lemma TrimShorter(s: string)
    ensures |Trim(s)| <= |s| && (|Trim(s)| == |s| ==> Trim(s) == s)
  {
    TrimLeftShorter(s);
    TrimRightShorter(TrimLeft(s));
  }

  lemma {:induction false} TrimRightEnds(s: string)
    ensures TrimRight(s) <= s && (TrimRight(s) != [] ==> !IsSpace(TrimRight(s)[|TrimRight(s)| - 1]))
  {
    if s != [] { TrimRightEnds(s[..|s| - 1]); }
  }

  lemma {:induction false} TrimLeftStarts(s: string)
    ensures TrimLeft(s) != [] ==> !IsSpace(TrimLeft(s)[0])
  {
    if s != [] { TrimLeftStarts(s[1..]); }
  }

  /** Trimming again changes nothing. */
  lemma TrimTwice(s: string)
    ensures Trim(Trim(s)) == Trim(s)
  {
    TrimLeftStarts(s);
    TrimRightEnds(TrimLeft(s));
    var t := Trim(s);
    if t != [] { assert t[0] == TrimLeft(s)[0]; }
  }

  predicate Trimmed(names: seq<string>) { forall i :: 0 <= i < |names| ==> Trim(names[i]) == names[i] }

  predicate Nameable(names: seq<string>) {
    forall i :: 0 <= i < |names| ==> names[i] != "" && ',' !in names[i]
  }

  lemma CleanSnoc(names: seq<string>, x: string)
    ensures TotalLength(Clean(names + [x])) == TotalLength(Clean(names)) + |Trim(x)|
    ensures TotalLength(names + [x]) == TotalLength(names) + |x|
  {
    MapConcat(Trim, names, [x]);
    assert Map(Trim, [x]) == [Trim(x)];
    FilterSnoc(NonEmpty, Map(Trim, names), Trim(x));
    TotalLengthSnoc(names, x);
    TotalLengthSnoc(Clean(names), Trim(x));
  }

  lemma TotalLengthSnoc(names: seq<string>, x: string)
    ensures TotalLength(names + [x]) == TotalLength(names) + |x|
  {
    assert (names + [x])[..|names|] == names;
  }

  lemma {:induction false} CleanShorter(names: seq<string>)
    ensures TotalLength(Clean(names)) <= TotalLength(names)
    ensures TotalLength(Clean(names)) == TotalLength(names) ==> Trimmed(names)
  {
    if names == [] {
      assert Clean([]) == [];
    } else {
      var n := |names| - 1;
      CleanShorter(names[..n]);
      TrimShorter(names[n]);
      CleanSnoc(names[..n], names[n]);
      assert names == names[..n] + [names[n]];
    }
  }

  lemma {:induction false} CleanTrimmed(names: seq<string>)
    requires Trimmed(names) && Nameable(names)
    ensures Clean(names) == names
  {
    if names != [] { CleanTrimmed(names[..|names| - 1]); }
  }

  /** Writing names as one text and reading them back gives the same names exactly when none is padded. */
  lemma NamesRoundTrip(names: seq<string>)
    requires Nameable(names)
    ensures SortNames(ReadNames(CommaJoined(names))) == SortNames(names) <==> Trimmed(names)
  {
    if names == [] {
      assert Split("") == [""];
      assert Trim("") == "" && Map(Trim, [""]) == [""];
      assert Clean([""]) == [];
    } else {
      SplitJoin(names);
      SortIsCanonical(ReadNames(CommaJoined(names)), names);
      if Trimmed(names) {
        CleanTrimmed(names);
      } else {
        CleanShorter(names);
        if multiset(Clean(names)) == multiset(names) { TotalLengthMultiset(Clean(names), names); }
      }
    }
  }

  // ---------- duplicates removed ----------

  function Compact(s: seq<string>): seq<string> {
    if |s| <= 1 then s
    else Compact(s[..|s| - 1]) + if s[|s| - 1] == s[|s| - 2] then [] else [s[|s| - 1]]
  }

  lemma {:induction false} CompactMembers(s: seq<string>)
    ensures forall x :: x in Compact(s) <==> x in s
  {
    if |s| > 1 {
      CompactMembers(s[..|s| - 1]);
      assert s == s[..|s| - 1] + [s[|s| - 1]];
      assert s[|s| - 2] in s[..|s| - 1] by { assert s[..|s| - 1][|s| - 2] == s[|s| - 2]; }
    }
  }

  lemma {:induction false} CompactDistinct(s: seq<string>)
    requires NoDup(s)
    ensures Compact(s) == s
  {
    if |s| > 1 { CompactDistinct(s[..|s| - 1]); }
  }
}
