/** Measurement cursors and the source identifiers built from remote log identities. */
module Cursors {
  import opened Text
  import opened Sequences

  /** Unix second of the zero value of the source's clock type. */
  const ZERO_TIME := -62135596800

  const CONSUME_LOG := 2
  const ERROR_LOG := 5

  datatype Cursor = Cursor(at: int, source: string) {
    predicate IsZero() { at == ZERO_TIME && source == "" }

    function Compare(other: Cursor): int {
      if at < other.at then -1
      else if at > other.at then 1
      else CompareText(source, other.source)
    }

    /** What a cursor must satisfy to be stored. */
    predicate Valid() {
      at != ZERO_TIME && !Blank(source) && |source| <= 256 && !ContainsAny(source, "\0\r\n")
    }
  }

  const ZERO_CURSOR := Cursor(ZERO_TIME, "")

  predicate CursorLe(a: Cursor, b: Cursor) { a.Compare(b) <= 0 }

  lemma CompareLaws(a: Cursor, b: Cursor)
    ensures a.Compare(b) == -b.Compare(a)
    ensures a.Compare(b) == 0 <==> a == b
  {
    CompareAntisymmetric(a.source, b.source);
  }

  lemma CursorLeTransitive(a: Cursor, b: Cursor, c: Cursor)
    requires CursorLe(a, b) && CursorLe(b, c)
    ensures CursorLe(a, c)
  {
    if a.at == b.at == c.at { CompareTransitive(a.source, b.source, c.source); }
  }

  function Later(a: Cursor, b: Cursor): Cursor { if a.IsZero() || a.Compare(b) < 0 then b else a }

  /** Error logs precede consume logs of the same second. */
  function LogOrder(kind: int): nat { if kind == ERROR_LOG then 0 else 1 }

  function SourceId(kind: int, id: nat): string { Decimal(LogOrder(kind)) + ":" + Padded(id, 20) }

  function LogCursor(createdAt: int, kind: int, id: nat): Cursor { Cursor(createdAt, SourceId(kind, id)) }

  /** Numeric lexicographic comparison of (second, type order, identifier). */
  function CompareKeys(atA: int, kindA: int, idA: nat, atB: int, kindB: int, idB: nat): int {
    if atA != atB then Sign(atA - atB)
    else if LogOrder(kindA) != LogOrder(kindB) then Sign(LogOrder(kindA) - LogOrder(kindB))
    else Sign(idA - idB)
  }

  lemma {:induction false} CompareCommonPrefix(p: string, a: string, b: string)
    ensures CompareText(p + a, p + b) == CompareText(a, b)
  {
    if p == [] {
      assert p + a == a && p + b == b;
    } else {
      CompareCommonPrefix(p[1..], a, b);
      assert (p + a)[1..] == p[1..] + a && (p + b)[1..] == p[1..] + b;
    }
  }

  lemma Power10Twenty()
    ensures Power10(20) == 100000000000000000000
  {
    assert Power10(5) == 100000;
    assert Power10(10) == 10000000000;
    assert Power10(15) == 1000000000000000;
  }

  /**
   Cursors compare as text; records sort numerically. The two orders agree for every
   identifier a signed 64-bit integer can hold.
   */
  lemma CursorOrderIsNumeric(atA: int, kindA: int, idA: nat, atB: int, kindB: int, idB: nat)
    requires idA < 0x8000_0000_0000_0000 && idB < 0x8000_0000_0000_0000
    ensures LogCursor(atA, kindA, idA).Compare(LogCursor(atB, kindB, idB)) ==
            CompareKeys(atA, kindA, idA, atB, kindB, idB)
  {
    Power10Twenty();
    var oa, ob := LogOrder(kindA), LogOrder(kindB);
    assert Decimal(oa) == [DigitChar(oa)] && Decimal(ob) == [DigitChar(ob)];
    if oa == ob {
      PaddedOrder(idA, idB, 20);
      CompareCommonPrefix(Decimal(oa) + ":", Padded(idA, 20), Padded(idB, 20));
    } else {
      assert SourceId(kindA, idA)[0] == DigitChar(oa) && SourceId(kindB, idB)[0] == DigitChar(ob);
    }
  }

  /** A cursor built from a log with a positive time is valid and identifies the log up to its type order. */
  lemma LogCursorIdentifies(atA: int, kindA: int, idA: nat, atB: int, kindB: int, idB: nat)
    requires idA < 0x8000_0000_0000_0000 && idB < 0x8000_0000_0000_0000
    ensures LogCursor(atA, kindA, idA) == LogCursor(atB, kindB, idB) <==>
            atA == atB && LogOrder(kindA) == LogOrder(kindB) && idA == idB
  {
    CursorOrderIsNumeric(atA, kindA, idA, atB, kindB, idB);
    CompareLaws(LogCursor(atA, kindA, idA), LogCursor(atB, kindB, idB));
  }
}
