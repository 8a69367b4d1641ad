/**
 Byte-string formatting: decimal numbers, zero padding, comma-separated lists and the
 length-prefixed framing that is fed to SHA-256. A character stands for one byte.
 */
module Text {
  import opened Sequences

  function DigitChar(d: nat): char
    requires d < 10
  {
    ('0' as int + d) as char
  }

  predicate IsDigit(c: char) { '0' <= c <= '9' }

  predicate IsSpace(c: char) { c == ' ' || '\t' <= c <= '\r' || c as int == 0x85 || c as int == 0xA0 }

  /** True of exactly the strings that trimming empties. */
  predicate Blank(s: string) { forall i :: 0 <= i < |s| ==> IsSpace(s[i]) }

  function TrimLeft(s: string): string { if s != [] && IsSpace(s[0]) then TrimLeft(s[1..]) else s }

  function TrimRight(s: string): string {
    if s != [] && IsSpace(s[|s| - 1]) then TrimRight(s[..|s| - 1]) else s
  }

  function Trim(s: string): string { TrimRight(TrimLeft(s)) }

  function LowerChar(c: char): char { if 'A' <= c <= 'Z' then (c as int + 32) as char else c }

  function Lower(s: string): string { if s == [] then [] else [LowerChar(s[0])] + Lower(s[1..]) }

  predicate ContainsAny(s: string, chars: string) { exists i :: 0 <= i < |s| && s[i] in chars }

  // ---------- unpadded decimals ----------

  function Decimal(n: nat): (s: string)
    ensures s != [] && forall i :: 0 <= i < |s| ==> IsDigit(s[i])
  {
    if n < 10 then [DigitChar(n)] else Decimal(n / 10) + [DigitChar(n % 10)]
  }

  function DecimalValue(s: string): int {
    if s == [] then 0 else 10 * DecimalValue(s[..|s| - 1]) + (s[|s| - 1] as int - '0' as int)
  }

  lemma {:induction false} DecimalRoundTrip(n: nat)
    ensures DecimalValue(Decimal(n)) == n
  {
    if n < 10 {
      assert DecimalValue([]) == 0;
    } else {
      DecimalRoundTrip(n / 10);
      var s := Decimal(n);
      assert s[..|s| - 1] == Decimal(n / 10);
    }
  }

  function FormatInt(n: int): (s: string)
    ensures s != []
    ensures forall i :: 0 <= i < |s| ==> IsDigit(s[i]) || s[i] == '-'
  {
    if n < 0 then ['-'] + Decimal(-n) else Decimal(n)
  }

  lemma FormatIntInjective(a: int, b: int)
    requires FormatInt(a) == FormatInt(b)
    ensures a == b
  {
    assert (a < 0) == (FormatInt(a)[0] == '-');
    assert (b < 0) == (FormatInt(b)[0] == '-');
    if a < 0 {
      assert Decimal(-a) == FormatInt(a)[1..] == FormatInt(b)[1..] == Decimal(-b);
      DecimalRoundTrip(-a);
      DecimalRoundTrip(-b);
    } else {
      DecimalRoundTrip(a);
      DecimalRoundTrip(b);
    }
  }

  // ---------- zero-padded decimals ----------

  function Power10(k: nat): (p: nat)
    ensures p >= 1
  {
    if k == 0 then 1 else 10 * Power10(k - 1)
  }

  function Padded(n: nat, width: nat): (s: string)
    ensures |s| == width
  {
    if width == 0 then [] else Padded(n / 10, width - 1) + [DigitChar(n % 10)]
  }

  lemma {:induction false} PaddedDigits(n: nat, width: nat)
    ensures forall i :: 0 <= i < width ==> IsDigit(Padded(n, width)[i])
  {
    if width > 0 { PaddedDigits(n / 10, width - 1); }
  }

  /** Byte-wise three-way comparison of strings. */
  function CompareText(a: string, b: string): int {
    if a == [] then
      if b == [] then 0 else -1
    else if b == [] then
      1
    else if a[0] < b[0] then
      -1
    else if b[0] < a[0] then
      1
    else
      CompareText(a[1..], b[1..])
  }

  function Sign(n: int): int { if n < 0 then -1 else if n > 0 then 1 else 0 }

  lemma {:induction false} CompareSnoc(a: string, x: char, b: string, y: char)
    requires |a| == |b|
    ensures CompareText(a + [x], b + [y]) ==
            if CompareText(a, b) != 0 then CompareText(a, b) else Sign(x as int - y as int)
  {
    if a == [] {
      assert a + [x] == [x] && b + [y] == [y];
    } else {
      assert (a + [x])[1..] == a[1..] + [x];
      assert (b + [y])[1..] == b[1..] + [y];
      CompareSnoc(a[1..], x, b[1..], y);
    }
  }

  /** Zero padding turns byte order into numeric order. */
  lemma {:induction false} PaddedOrder(m: nat, n: nat, width: nat)
    requires m < Power10(width) && n < Power10(width)
    ensures CompareText(Padded(m, width), Padded(n, width)) == Sign(m - n)
  {
    if width > 0 {
      PaddedOrder(m / 10, n / 10, width - 1);
      CompareSnoc(Padded(m / 10, width - 1), DigitChar(m % 10), Padded(n / 10, width - 1), DigitChar(n % 10));
    }
  }

  lemma {:induction false} CompareReflexive(a: string)
    ensures CompareText(a, a) == 0
  {
    if a != [] { CompareReflexive(a[1..]); }
  }

  lemma {:induction false} CompareAntisymmetric(a: string, b: string)
    ensures CompareText(a, b) == -CompareText(b, a)
    ensures CompareText(a, b) == 0 <==> a == b
  {
    if a != [] && b != [] {
      CompareAntisymmetric(a[1..], b[1..]);
      if a[0] == b[0] {
        assert a == [a[0]] + a[1..];
        assert b == [b[0]] + b[1..];
      }
    }
  }

  lemma {:induction false} CompareTransitive(a: string, b: string, c: string)
    requires CompareText(a, b) <= 0 && CompareText(b, c) <= 0
    ensures CompareText(a, c) <= 0
  {
    if a != [] && b != [] && c != [] && a[0] == b[0] == c[0] {
      CompareTransitive(a[1..], b[1..], c[1..]);
    }
  }

  // ---------- comma-separated lists ----------

  function CommaJoined(parts: seq<string>): string {
    if parts == [] then ""
    else if |parts| == 1 then parts[0]
    else parts[0] + "," + CommaJoined(parts[1..])
  }

  function Split(s: string): (parts: seq<string>)
    ensures parts != []
  {
    if s == [] then
      [""]
    else
      var rest := Split(s[1..]);
      if s[0] == ',' then [""] + rest else [[s[0]] + rest[0]] + rest[1..]
  }

  lemma {:induction false} SplitPrefix(p: string, rest: string)
    requires ',' !in p
    ensures Split(p + "," + rest) == [p] + Split(rest)
  {
    if p == [] {
      assert p + "," + rest == [','] + rest;
    } else {
      var s := p + "," + rest;
      assert s[0] == p[0];
      assert s[1..] == p[1..] + "," + rest;
      SplitPrefix(p[1..], rest);
      assert [p[0]] + p[1..] == p;
    }
  }

  lemma {:induction false} SplitPlain(p: string)
    requires ',' !in p
    ensures Split(p) == [p]
  {
    if p != [] {
      SplitPlain(p[1..]);
      assert [p[0]] + p[1..] == p;
    }
  }

  lemma {:induction false} SplitJoin(parts: seq<string>)
    requires parts != [] && forall i :: 0 <= i < |parts| ==> ',' !in parts[i]
    ensures Split(CommaJoined(parts)) == parts
  {
    if |parts| == 1 {
      SplitPlain(parts[0]);
    } else {
      SplitJoin(parts[1..]);
      SplitPrefix(parts[0], CommaJoined(parts[1..]));
    }
  }

  function FormatInts(ns: seq<int>): (parts: seq<string>)
    ensures |parts| == |ns|
    ensures forall i :: 0 <= i < |ns| ==> parts[i] == FormatInt(ns[i])
  {
    if ns == [] then [] else FormatInts(ns[..|ns| - 1]) + [FormatInt(ns[|ns| - 1])]
  }

  lemma JoinedIntsEmpty(ns: seq<int>)
    ensures CommaJoined(FormatInts(ns)) == "" <==> ns == []
  {
    if ns != [] { assert FormatInts(ns)[0] == FormatInt(ns[0]) != ""; }
  }

  lemma JoinedIntsInjective(a: seq<int>, b: seq<int>)
    requires CommaJoined(FormatInts(a)) == CommaJoined(FormatInts(b))
    ensures a == b
  {
    JoinedIntsEmpty(a);
    JoinedIntsEmpty(b);
    if a != [] {
      SplitJoin(FormatInts(a));
      SplitJoin(FormatInts(b));
      forall i | 0 <= i < |a| ensures a[i] == b[i] {
        assert FormatInts(a)[i] == FormatInts(b)[i];
        FormatIntInjective(a[i], b[i]);
      }
    }
  }

  // ---------- the framing hashed by stableHash ----------

  function BigEndian(n: nat, width: nat): (s: string)
    ensures |s| == width
  {
    if width == 0 then [] else BigEndian(n / 256, width - 1) + [(n % 256) as char]
  }

  function Power256(k: nat): (p: nat)
    ensures p >= 1
  {
    if k == 0 then 1 else 256 * Power256(k - 1)
  }

  lemma {:induction false} BigEndianInjective(m: nat, n: nat, width: nat)
    requires m < Power256(width) && n < Power256(width)
    requires BigEndian(m, width) == BigEndian(n, width)
    ensures m == n
  {
    if width > 0 {
      var a, b := BigEndian(m, width), BigEndian(n, width);
      assert a[..width - 1] == BigEndian(m / 256, width - 1);
      assert b[..width - 1] == BigEndian(n / 256, width - 1);
      assert a[width - 1] == b[width - 1];
      BigEndianInjective(m / 256, n / 256, width - 1);
    }
  }

  /** Every part preceded by its length as eight big-endian bytes. */
  function Frame(parts: seq<string>): string {
    if parts == [] then "" else BigEndian(|parts[0]|, 8) + parts[0] + Frame(parts[1..])
  }

  /** Two part lists that give the hash the same bytes are the same list. */
  lemma {:induction false} FrameInjective(a: seq<string>, b: seq<string>)
    requires forall i :: 0 <= i < |a| ==> |a[i]| < Power256(8)
    requires forall i :: 0 <= i < |b| ==> |b[i]| < Power256(8)
    requires Frame(a) == Frame(b)
    ensures a == b
    decreases |a|
  {
    if a != [] && b != [] {
      var f, g := Frame(a), Frame(b);
      assert f[..8] == BigEndian(|a[0]|, 8);
      assert g[..8] == BigEndian(|b[0]|, 8);
      BigEndianInjective(|a[0]|, |b[0]|, 8);
      var n := 8 + |a[0]|;
      assert f[8..n] == a[0] && g[8..n] == b[0];
      assert f[n..] == Frame(a[1..]) && g[n..] == Frame(b[1..]);
      FrameInjective(a[1..], b[1..]);
      assert a == [a[0]] + a[1..] && b == [b[0]] + b[1..];
    }
  }
}
