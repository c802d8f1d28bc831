/** The BER splitter of the trap listener and the SNMPv3 message walker on top of it
    (ITU-T X.690 section 8.1.3, RFC 3412 section 6). */
module Ber {
  import opened Bits
  import opened Options

  type byte = x: int | 0 <= x < 256

  type Bytes = seq<byte>

  /* ---- the splitter ---- */

  datatype Element = Element(tag: byte, content: Bytes, rest: Bytes)

  /** The base-256 value of the octets, most significant first. */
  function Base256(bs: Bytes): nat {
    if bs == [] then 0 else 256 * Base256(bs[..|bs| - 1]) + bs[|bs| - 1]
  }

  function Power256(n: nat): nat {
    if n == 0 then 1 else 256 * Power256(n - 1)
  }

  lemma {:induction false} Base256Bound(bs: Bytes)
    ensures Base256(bs) < Power256(|bs|)
  {
    if bs != [] { Base256Bound(bs[..|bs| - 1]); }
  }

  /** The length octets accepted: short form, or long form with one to four octets, which need not
      be minimal. The value they denote is `n`. */
  predicate LengthOctets(ls: Bytes, n: nat) {
    if |ls| == 1 then ls[0] < 128 && n == ls[0]
    else 2 <= |ls| <= 5 && ls[0] == 128 + |ls| - 1 && n == Base256(ls[1..])
  }

  /** `b` is one encoded element followed by `e.rest`. */
  ghost predicate Encodes(b: Bytes, ls: Bytes, e: Element) {
    LengthOctets(ls, |e.content|) && b == [e.tag] + ls + e.content + e.rest
  }

  ghost predicate SplitsAs(b: Bytes, e: Element) {
    exists ls :: Encodes(b, ls, e)
  }

  /** `berElement`: the loop of the source over the length octets, with its shifts and ors. */
  method BerElement(b: Bytes) returns (r: Option<Element>)
    ensures r == Split(b)
  {
    if |b| < 2 {
      return None;
    }
    var length, start := b[1], 2;
    HighBit(length);
    if And(length, 0x80) != 0 {
      var n := And(length, 0x7f);
      if n == 0 || n > 4 || |b| < start + n {
        return None;
      }
      length := 0;
      ghost var octets := b[start..start + n];
      var i := 0;
      while i < n
        invariant 0 <= i <= n && length == Base256(octets[..i])
      {
        var c := b[start + i];
        assert c == octets[i];
        ShiftOr(length, c);
        length := Or(Shl(length, 8), c);
        assert octets[..i + 1][..i] == octets[..i];
        i := i + 1;
      }
      assert octets[..n] == octets;
      Base256Bound(octets);
      start := start + n;
    }
    if |b| - start < length {
      return None;
    }
    return Some(Element(b[0], b[start..start + length], b[start + length..]));
  }

  /** How many octets the header takes, if there is a well-formed one. */
  function HeaderSize(b: Bytes): (h: Option<nat>)
    ensures h.Some? ==> 2 <= h.value <= |b|
  {
    if |b| < 2 then None
    else if b[1] < 128 then Some(2)
    else
      var n := b[1] - 128;
      if n == 0 || n > 4 || |b| < 2 + n then None else Some(2 + n)
  }

  function Split(b: Bytes): Option<Element> {
    var h := HeaderSize(b);
    if h.None? then None else
    var length := if h.value == 2 then b[1] else Base256(b[2..h.value]);
    if |b| - h.value < length then None else
    Some(Element(b[0], b[h.value..h.value + length], b[h.value + length..]))
  }

  /** The accumulated length never leaves 32 bits. */
  lemma LengthFits(ls: Bytes, n: nat)
    requires LengthOctets(ls, n)
    ensures n < 0x1_0000_0000
  {
    if |ls| > 1 {
      Base256Bound(ls[1..]);
      PowerMonotone(|ls| - 1, 4);
      assert Power256(4) == 0x1_0000_0000;
    }
  }

  lemma {:induction false} PowerMonotone(i: nat, j: nat)
    requires i <= j
    ensures Power256(i) <= Power256(j)
  {
    if i < j { PowerMonotone(i, j - 1); }
  }

  /** Reading what was written: any accepted length form of any content, followed by anything. */
  lemma SplitOfEncoding(b: Bytes, ls: Bytes, e: Element)
    requires Encodes(b, ls, e)
    ensures Split(b) == Some(e)
  {
    var h := 1 + |ls|;
    assert b[0] == e.tag;
    assert b[1..h] == ls;
    assert b[1] == ls[0];
    assert HeaderSize(b) == Some(h);
    if |ls| > 1 { assert b[2..h] == ls[1..]; }
    assert b[h..h + |e.content|] == e.content;
    assert b[h + |e.content|..] == e.rest;
  }

  /** Writing what was read: header, content and rest make up the input again. */
  lemma SplitIsEncoding(b: Bytes) returns (ls: Bytes)
    requires Split(b).Some?
    ensures Encodes(b, ls, Split(b).value)
  {
    var h, e := HeaderSize(b).value, Split(b).value;
    ls := b[1..h];
    if h > 2 { assert ls[1..] == b[2..h]; }
    assert b == [b[0]] + b[1..h] + b[h..h + |e.content|] + b[h + |e.content|..];
  }

  /** Success is exactly being an encoding, and the encoding determines the result. */
  lemma SplitExact(b: Bytes, e: Element)
    ensures Split(b) == Some(e) <==> SplitsAs(b, e)
  {
    if Split(b) == Some(e) {
      var ls := SplitIsEncoding(b);
      assert Encodes(b, ls, e);
    }
    if ls :| Encodes(b, ls, e) {
      SplitOfEncoding(b, ls, e);
    }
  }

  /** Every content below 2^32 octets has an encoding in the four-octet form. */
  function Octets4(n: nat): Bytes
    requires n < 0x1_0000_0000
  {
    [132, (n / 0x100_0000), (n / 0x1_0000 % 256), (n / 0x100 % 256), (n % 256)]
  }

  lemma Octets4Denote(n: nat)
    requires n < 0x1_0000_0000
    ensures LengthOctets(Octets4(n), n)
  {
    var o := Octets4(n);
    assert o[1..] == [o[1], o[2], o[3], o[4]];
    FourOctets(o[1], o[2], o[3], o[4]);
    Recompose(n);
  }

  /** Every tag and every content that a 32-bit length can give has an encoding, whatever follows it,
      and it splits back. */
  lemma EncodingExists(e: Element) returns (b: Bytes)
    requires |e.content| < 0x1_0000_0000
    ensures b == [e.tag] + Octets4(|e.content|) + e.content + e.rest
    ensures Split(b) == Some(e)
  {
    b := [e.tag] + Octets4(|e.content|) + e.content + e.rest;
    Octets4Denote(|e.content|);
    SplitOfEncoding(b, Octets4(|e.content|), e);
  }

  lemma Recompose(n: nat)
    ensures n == 256 * (256 * (256 * (n / 0x100_0000) + n / 0x1_0000 % 256) + n / 0x100 % 256) + n % 256
  {
    assert n / 0x1_0000 / 256 == n / 0x100_0000 && n / 0x100 / 256 == n / 0x1_0000;
  }

  lemma FourOctets(a: byte, b: byte, c: byte, d: byte)
    ensures Base256([a, b, c, d]) == 256 * (256 * (256 * a + b) + c) + d
  {
    assert [a, b, c, d][..3] == [a, b, c] && [a, b, c][..2] == [a, b] && [a, b][..1] == [a] && [a][..0] == [];
    assert Base256([a]) == a;
    assert Base256([a, b]) == 256 * Base256([a]) + b;
    assert Base256([a, b, c]) == 256 * Base256([a, b]) + c;
  }

  /* ---- the message walker ---- */

  const OCTET_STRING: byte := 0x04

  /** `scopedPDUEncrypted`: skips version, global data and security parameters inside the outer
      element and looks at the tag of what follows. */
  method ScopedPDUEncrypted(msg: Bytes) returns (encrypted: bool)
    ensures encrypted == FourthIsOctetString(msg)
  {
    var e := BerElement(msg);
    var ok := e.Some?;
    var rest := if ok then e.value.content else [];
    ghost var inner := rest;
    var i := 0;
    while i < 3
      invariant 0 <= i <= 3
      invariant ok ==> Split(msg).Some? && Skip(inner, i) == Some(rest)
      invariant !ok ==> rest == [] && (Split(msg).Some? ==> i > 0 && Skip(inner, i).None?)
      invariant Split(msg).Some? ==> inner == Split(msg).value.content
    {
      if !ok {
        if Split(msg).Some? { SkipMore(inner, i, 3); }
        return false;
      }
      SkipOne(inner, i, rest);
      e := BerElement(rest);
      ok := e.Some?;
      rest := if ok then e.value.rest else [];
      i := i + 1;
    }
    e := BerElement(rest);
    return e.Some? && e.value.tag == OCTET_STRING;
  }

  /** What is left after `n` elements. */
  function Skip(b: Bytes, n: nat): Option<Bytes> {
    if n == 0 then Some(b) else
    var before := Skip(b, n - 1);
    if before.None? then None else
    var e := Split(before.value);
    if e.None? then None else Some(e.value.rest)
  }

  lemma SkipOne(b: Bytes, i: nat, rest: Bytes)
    requires Skip(b, i) == Some(rest)
    ensures Skip(b, i + 1) == if Split(rest).None? then None else Some(Split(rest).value.rest)
  {
  }

  lemma {:induction false} SkipMore(b: Bytes, i: nat, n: nat)
    requires i <= n && Skip(b, i).None?
    ensures Skip(b, n).None?
  {
    if i < n { SkipMore(b, i, n - 1); }
  }

  predicate FourthIsOctetString(msg: Bytes) {
    var outer := Split(msg);
    outer.Some? &&
    var three := Skip(outer.value.content, 3);
    three.Some? &&
    var fourth := Split(three.value);
    fourth.Some? && fourth.value.tag == OCTET_STRING
  }

  /** Four consecutive elements at the start of `b`: `es[k].rest` is what follows element `k`. */
  ghost predicate FourElements(b: Bytes, es: seq<Element>) {
    && |es| == 4
    && SplitsAs(b, es[0]) && SplitsAs(es[0].rest, es[1]) && SplitsAs(es[1].rest, es[2]) && SplitsAs(es[2].rest, es[3])
  }

  /** The walker is exact: it says yes precisely when the message is one element, in any accepted
      length form, whose content begins with four elements, the fourth an OCTET STRING. Trailing
      octets, outside or inside, do not matter. */
  lemma WalkerExact(msg: Bytes)
    ensures FourthIsOctetString(msg) <==>
      exists outer: Element, es: seq<Element> ::
        SplitsAs(msg, outer) && FourElements(outer.content, es) && es[3].tag == 0x04
  {
    if FourthIsOctetString(msg) {
      var outer := Split(msg).value;
      SplitExact(msg, outer);
      var es := FirstFour(outer.content);
    }
    if outer: Element, es: seq<Element> :|
        SplitsAs(msg, outer) && FourElements(outer.content, es) && es[3].tag == 0x04 {
      SplitExact(msg, outer);
      FourSkipped(outer.content, es);
    }
  }

  lemma FirstFour(b: Bytes) returns (es: seq<Element>)
    requires Skip(b, 3).Some? && Split(Skip(b, 3).value).Some?
    ensures FourElements(b, es) && Split(Skip(b, 3).value) == Some(es[3])
  {
    SkipSome(b, 0, 3);
    SkipSome(b, 1, 3);
    SkipSome(b, 2, 3);
    var e0 := SkipStep(b, 0);
    var e1 := SkipStep(b, 1);
    var e2 := SkipStep(b, 2);
    var r3 := Skip(b, 3).value;
    var e3 := Split(r3).value;
    SplitExact(r3, e3);
    es := FourOf(b, e0, e1, e2, e3);
  }

  lemma FourOf(b: Bytes, e0: Element, e1: Element, e2: Element, e3: Element) returns (es: seq<Element>)
    requires SplitsAs(b, e0) && SplitsAs(e0.rest, e1) && SplitsAs(e1.rest, e2) && SplitsAs(e2.rest, e3)
    ensures FourElements(b, es) && es[3] == e3
  {
    es := [e0, e1, e2, e3];
  }

  lemma {:induction false} SkipSome(b: Bytes, i: nat, n: nat)
    requires i <= n && Skip(b, n).Some?
    ensures Skip(b, i).Some?
  {
    if i < n { SkipSome(b, i, n - 1); }
  }

  lemma SkipStep(b: Bytes, n: nat) returns (e: Element)
    requires Skip(b, n).Some? && Skip(b, n + 1).Some?
    ensures SplitsAs(Skip(b, n).value, e) && Skip(b, n + 1).value == e.rest
  {
    e := Split(Skip(b, n).value).value;
    SplitExact(Skip(b, n).value, e);
  }

  lemma FourSkipped(b: Bytes, es: seq<Element>)
    requires FourElements(b, es)
    ensures Skip(b, 3) == Some(es[2].rest) && Split(es[2].rest) == Some(es[3])
  {
    SplitExact(b, es[0]);
    SplitExact(es[0].rest, es[1]);
    SplitExact(es[1].rest, es[2]);
    SplitExact(es[2].rest, es[3]);
    assert Skip(b, 0) == Some(b);
    assert Skip(b, 1) == Some(es[0].rest);
    assert Skip(b, 2) == Some(es[1].rest);
  }
}
