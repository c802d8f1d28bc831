/** Names of the files one exporter process creates.

    A writer opens "part-<unix nanoseconds>-<seq>.parquet.part" in its directory and, once the
    file is complete, strips ".part". `seq` is one counter for the whole process, so two opens
    never print the same counter, whatever the clock or the directory. */
module FileNames {

  function Digit(d: nat): (c: char)
    requires d < 10
  {
    '0' + d as char
  }

  predicate IsDigit(c: char) {
    '0' <= c <= '9'
  }

  /** The %d form of a non-negative integer. */
  function Decimal(n: nat): (s: string)
    ensures |s| > 0 && forall i :: 0 <= i < |s| ==> IsDigit(s[i])
  {
    if n < 10 then [Digit(n)] else Decimal(n / 10) + [Digit(n % 10)]
  }

  /** The %d form of any integer: the clock may read before 1970. */
  function SignedDecimal(i: int): string {
    if i < 0 then "-" + Decimal(-i) else Decimal(i)
  }

  /** `dir` is the writer's cleaned directory with its trailing separator. */
  function PartPath(dir: string, nanos: int, n: nat): (p: string)
    ensures |p| > |PART|
  {
    dir + "part-" + SignedDecimal(nanos) + "-" + Decimal(n) + PARQUET + PART
  }

  const PARQUET := ".parquet"
  const PART := ".part"

  /** The published name: the part name without its ".part". */
  function FinalPath(part: string): string
    requires |part| >= |PART|
  {
    part[..|part| - |PART|]
  }

  predicate EndsWith(s: string, suffix: string) {
    |suffix| <= |s| && s[|s| - |suffix|..] == suffix
  }

  /** A name readers glob for. */
  predicate IsFinal(p: string) {
    EndsWith(p, PARQUET)
  }

  lemma {:induction false} DecimalInjective(a: nat, b: nat)
    requires Decimal(a) == Decimal(b)
    ensures a == b
  {
    if a < 10 || b < 10 {
      assert |Decimal(a)| == 1 <==> a < 10;
      assert |Decimal(b)| == 1 <==> b < 10;
      assert Decimal(a)[0] == Decimal(b)[0];
    } else {
      var x, y := Decimal(a / 10), Decimal(b / 10);
      assert (x + [Digit(a % 10)])[|x|] == (y + [Digit(b % 10)])[|y|];
      assert x == (x + [Digit(a % 10)])[..|x|] == (y + [Digit(b % 10)])[..|y|] == y;
      DecimalInjective(a / 10, b / 10);
    }
  }

  /** The longest suffix of `s` made of digits: what a reader of the name recovers. */
  function TrailingDigits(s: string): string {
    if s == "" || !IsDigit(s[|s| - 1]) then "" else TrailingDigits(s[..|s| - 1]) + [s[|s| - 1]]
  }

  lemma {:induction false} TrailingDigitsOf(p: string, ds: string)
    requires p != "" && !IsDigit(p[|p| - 1])
    requires forall i :: 0 <= i < |ds| ==> IsDigit(ds[i])
    ensures TrailingDigits(p + ds) == ds
  {
    if ds == "" {
      assert p + ds == p;
    } else {
      var init := ds[..|ds| - 1];
      assert (p + ds)[..|p + ds| - 1] == p + init;
      TrailingDigitsOf(p, init);
      assert init + [ds[|ds| - 1]] == ds;
    }
  }

  /** The counter can be read back from the name, so the name determines it. */
  lemma CounterReadBack(dir: string, nanos: int, n: nat)
    ensures var p := PartPath(dir, nanos, n);
            var stem := p[..|p| - |PARQUET| - |PART|];
            TrailingDigits(stem) == Decimal(n)
  {
    var p := PartPath(dir, nanos, n);
    var head := dir + "part-" + SignedDecimal(nanos) + "-";
    assert p == head + Decimal(n) + PARQUET + PART;
    assert p[..|p| - |PARQUET| - |PART|] == head + Decimal(n);
    TrailingDigitsOf(head, Decimal(n));
  }

  /** Two opens with different counters never collide: not on the part name, and not on the
      published name, whatever directories and clock readings they had. */
  lemma NamesNeverCollide(d1: string, t1: int, n1: nat, d2: string, t2: int, n2: nat)
    requires n1 != n2
    ensures PartPath(d1, t1, n1) != PartPath(d2, t2, n2)
    ensures FinalPath(PartPath(d1, t1, n1)) != FinalPath(PartPath(d2, t2, n2))
  {
    if FinalPath(PartPath(d1, t1, n1)) == FinalPath(PartPath(d2, t2, n2)) {
      PartIsNotFinal(d1, t1, n1);
      PartIsNotFinal(d2, t2, n2);
      StripIsInjective(PartPath(d1, t1, n1), PartPath(d2, t2, n2));
      SamePartSameCounter(d1, t1, n1, d2, t2, n2);
    }
  }

  lemma SamePartSameCounter(d1: string, t1: int, n1: nat, d2: string, t2: int, n2: nat)
    requires PartPath(d1, t1, n1) == PartPath(d2, t2, n2)
    ensures n1 == n2
  {
    CounterReadBack(d1, t1, n1);
    CounterReadBack(d2, t2, n2);
    DecimalInjective(n1, n2);
  }

  /** The clock reading can be read back too: `s` is what stands before the counter. */
  lemma ReadingReadBack(head: string, t: int)
    ensures TrailingDigits(head + "part-" + SignedDecimal(t)) == Decimal(if t < 0 then -t else t)
  {
    if t < 0 {
      assert head + "part-" + SignedDecimal(t) == (head + "part--") + Decimal(-t);
      TrailingDigitsOf(head + "part--", Decimal(-t));
    } else {
      TrailingDigitsOf(head + "part-", Decimal(t));
    }
  }

  lemma SameHead(h1: string, h2: string, tail: string)
    requires h1 + tail == h2 + tail
    ensures h1 == h2
  {
    assert h1 == (h1 + tail)[..|h1|];
    assert h2 == (h2 + tail)[..|h2|];
  }

  /** The sign is told by the character two places before the digits. */
  lemma SignReadBack(d: string, t: int, ds: string)
    requires ds == Decimal(if t < 0 then -t else t)
    ensures var s := d + "part-" + SignedDecimal(t);
            |s| >= |ds| + 2 && s[|s| - |ds| - 2] == if t < 0 then '-' else 't'
  {
    if t < 0 {
      assert d + "part-" + SignedDecimal(t) == d + "part--" + ds;
    }
  }

  /** A part name belongs to one clock reading: a process whose clock never shows the reading in an
      earlier file's name cannot generate that name. */
  lemma SamePartSameReading(d1: string, t1: int, n1: nat, d2: string, t2: int, n2: nat)
    requires PartPath(d1, t1, n1) == PartPath(d2, t2, n2)
    ensures t1 == t2
  {
    SamePartSameCounter(d1, t1, n1, d2, t2, n2);
    PartHead(d1, t1, n1);
    PartHead(d2, t2, n2);
    HeadsAgree(d1 + "part-" + SignedDecimal(t1), d2 + "part-" + SignedDecimal(t2), n1);
    SameHeadSameReading(d1, t1, d2, t2);
  }

  lemma PartHead(d: string, t: int, n: nat)
    ensures PartPath(d, t, n) == (d + "part-" + SignedDecimal(t)) + "-" + Decimal(n) + PARQUET + PART
  {
  }

  lemma SameHeadSameReading(d1: string, t1: int, d2: string, t2: int)
    requires d1 + "part-" + SignedDecimal(t1) == d2 + "part-" + SignedDecimal(t2)
    ensures t1 == t2
  {
    var a1, a2 := if t1 < 0 then -t1 else t1, if t2 < 0 then -t2 else t2;
    ReadingReadBack(d1, t1);
    ReadingReadBack(d2, t2);
    DecimalInjective(a1, a2);
    SignReadBack(d1, t1, Decimal(a1));
    SignReadBack(d2, t2, Decimal(a1));
  }

  lemma HeadsAgree(h1: string, h2: string, n: nat)
    requires h1 + "-" + Decimal(n) + PARQUET + PART == h2 + "-" + Decimal(n) + PARQUET + PART
    ensures h1 == h2
  {
    SameHead(h1 + "-" + Decimal(n) + PARQUET, h2 + "-" + Decimal(n) + PARQUET, PART);
    SameHead(h1 + "-" + Decimal(n), h2 + "-" + Decimal(n), PARQUET);
    SameHead(h1 + "-", h2 + "-", Decimal(n));
    SameHead(h1, h2, "-");
  }

  /** Both names are in the writer's directory, directly, and show the clock reading before the counter. */
  lemma PartInDirectory(dir: string, t: int, n: nat)
    ensures PartPath(dir, t, n) == dir + ("part-" + SignedDecimal(t) + "-" + Decimal(n) + ".parquet.part")
    ensures FinalPath(PartPath(dir, t, n)) == dir + ("part-" + SignedDecimal(t) + "-" + Decimal(n) + ".parquet")
  {
    var stem := "part-" + SignedDecimal(t) + "-" + Decimal(n);
    NameSplits(dir, "part-", SignedDecimal(t), "-", Decimal(n));
    assert PartPath(dir, t, n) == dir + stem + PARQUET + PART;
    Regroup(dir, stem, PARQUET);
    Regroup(dir, stem + PARQUET, PART);
    Regroup(stem, PARQUET, PART);
    assert PARQUET + PART == ".parquet.part";
  }

  lemma Regroup(a: string, b: string, c: string)
    ensures a + b + c == a + (b + c)
  {
  }

  lemma NameSplits(a: string, b: string, c: string, d: string, e: string)
    ensures a + b + c + d + e == a + (b + c + d + e)
  {
  }

  /** Stripping ".part" is injective on names that end in ".part". */
  lemma StripIsInjective(p: string, q: string)
    requires EndsWith(p, PART) && EndsWith(q, PART)
    requires FinalPath(p) == FinalPath(q)
    ensures p == q
  {
    assert p == FinalPath(p) + PART;
    assert q == FinalPath(q) + PART;
  }

  /** A part name is never a published name, and stripping makes it one. */
  lemma PartIsNotFinal(dir: string, nanos: int, n: nat)
    ensures EndsWith(PartPath(dir, nanos, n), PART)
    ensures !IsFinal(PartPath(dir, nanos, n))
    ensures IsFinal(FinalPath(PartPath(dir, nanos, n)))
  {
    var p := PartPath(dir, nanos, n);
    var head := dir + "part-" + SignedDecimal(nanos) + "-" + Decimal(n);
    assert p == head + PARQUET + PART;
    assert p[|p| - |PART|..] == PART;
    assert p[|p| - |PARQUET|..][7] == 't' by { assert p[|p| - 1] == PART[4] == 't'; }
    assert p[|p| - |PARQUET|..][6] == 'r' by { assert p[|p| - 2] == PART[3] == 'r'; }
    assert PARQUET[6] == 'e';
    assert FinalPath(p) == head + PARQUET;
    assert FinalPath(p)[|FinalPath(p)| - |PARQUET|..] == PARQUET;
  }
}
