/** The fields that Protocol Buffers allow in a message, described by a grammar of their own, and the
    proof that the decoder skips every one of them whose number it does not know. */
module UnknownFields {
  import opened Basics
  import opened Wire

  const MAX_NUMBER := 0x1FFF_FFFF

  /** The five kinds of payload; groups nest. */
  datatype WireField =
    | VarintField(number: nat, digits: seq<byte>)
    | Fixed64Field(number: nat, bytes: seq<byte>)
    | DelimitedField(number: nat, bytes: seq<byte>)
    | GroupField(number: nat, inner: seq<WireField>)
    | Fixed32Field(number: nat, bytes: seq<byte>)

  /** One to ten bytes, all but the last marked; not necessarily the shortest spelling. */
  predicate VarintDigits(s: seq<byte>) {
    1 <= |s| <= 10 && s[|s| - 1] < 128 && forall i :: 0 <= i < |s| - 1 ==> s[i] >= 128
  }

  predicate Grammatical(f: WireField) {
    && 1 <= f.number <= MAX_NUMBER
    && match f
       case VarintField(_, digits) => VarintDigits(digits)
       case Fixed64Field(_, bytes) => |bytes| == 8
       case DelimitedField(_, _) => true
       case GroupField(_, inner) => forall i :: 0 <= i < |inner| ==> Grammatical(inner[i])
       case Fixed32Field(_, bytes) => |bytes| == 4
  }

  function Tag(number: nat, wire: nat): seq<byte> {
    Varint(8 * number + wire)
  }

  function Spell(f: WireField): seq<byte>
    decreases f, 0
  {
    match f
    case VarintField(n, digits) => Tag(n, 0) + digits
    case Fixed64Field(n, bytes) => Tag(n, 1) + bytes
    case DelimitedField(n, bytes) => Tag(n, 2) + (Varint(|bytes|) + bytes)
    case GroupField(n, inner) => Tag(n, 3) + (SpellAll(inner) + Tag(n, 4))
    case Fixed32Field(n, bytes) => Tag(n, 5) + bytes
  }

  function SpellAll(fields: seq<WireField>): seq<byte>
    decreases fields, 1
  {
    if fields == [] then [] else Spell(fields[0]) + SpellAll(fields[1..])
  }

  // ---------------------------------------------------------------- reading from the middle

  /** `s` has `x` at position `i`. */
  predicate Has(s: seq<byte>, i: nat, x: seq<byte>) {
    i + |x| <= |s| && s[i..i + |x|] == x
  }

  lemma HasParts(s: seq<byte>, i: nat, x: seq<byte>, y: seq<byte>)
    requires Has(s, i, x + y)
    ensures Has(s, i, x) && Has(s, i + |x|, y)
  {
    assert s[i..i + |x|] == (x + y)[..|x|];
    assert s[i + |x|..i + |x| + |y|] == (x + y)[|x|..];
  }

  lemma VarintAt(s: seq<byte>, i: nat, v: nat)
    requires Has(s, i, Varint(v)) && v < TWO_TO_THE_64
    ensures ReadVarint(s[i..]) == Some(Number(v, |Varint(v)|))
  {
    var rest := s[i + |Varint(v)|..];
    assert s[i..] == Varint(v) + rest;
    VarintRoundTrip(v, rest);
  }

  lemma {:induction false} DigitsEnd(s: seq<byte>, x: seq<byte>, limit: nat)
    requires 1 <= |s| <= limit && s[|s| - 1] < 128 && forall i :: 0 <= i < |s| - 1 ==> s[i] >= 128
    ensures VarintSize(s + x, limit) == Some(|s|)
  {
    if |s| > 1 {
      assert (s + x)[1..] == s[1..] + x;
      DigitsEnd(s[1..], x, limit - 1);
    }
  }

  lemma DigitsAt(s: seq<byte>, i: nat, digits: seq<byte>)
    requires Has(s, i, digits) && VarintDigits(digits)
    ensures VarintSize(s[i..], 10) == Some(|digits|)
  {
    var rest := s[i + |digits|..];
    assert s[i..] == digits + rest;
    DigitsEnd(digits, rest, 10);
  }

  // ---------------------------------------------------------------- skipping

  /** What skipping does after a field that ends at `j`, inside `depth` groups. */
  function Onward(s: seq<byte>, j: nat, depth: nat): Option<nat>
    requires |s| <= MAX_INT
  {
    if depth == 0 then Some(j) else Skip(s, j, depth)
  }

  /** Skipping reads the tag, steps over the payload and goes on at the new depth. */
  lemma SkipTag(s: seq<byte>, i: nat, depth: nat, number: nat, wire: nat, next: nat)
    requires |s| <= MAX_INT && number <= MAX_NUMBER && wire <= 5 && Has(s, i, Tag(number, wire))
    requires SkipPayload(s, i + |Tag(number, wire)|, wire) == Some(next)
    requires wire == 4 ==> depth > 0
    ensures var inside := if wire == 3 then depth + 1 else if wire == 4 then depth - 1 else depth;
            Skip(s, i, depth) == Onward(s, next, inside)
  {
    hide ReadVarint, SkipPayload, Varint;
    VarintAt(s, i, 8 * number + wire);
    assert (8 * number + wire) % 8 == wire;
  }

  lemma VarintPayload(s: seq<byte>, i: nat, digits: seq<byte>)
    requires |s| <= MAX_INT && Has(s, i, digits) && VarintDigits(digits)
    ensures SkipPayload(s, i, 0) == Some(i + |digits|)
  {
    hide VarintSize, VarintDigits;
    DigitsAt(s, i, digits);
  }

  lemma FixedPayload(s: seq<byte>, i: nat)
    requires i <= |s| <= MAX_INT
    ensures i + 8 <= |s| ==> SkipPayload(s, i, 1) == Some(i + 8)
    ensures i + 4 <= |s| ==> SkipPayload(s, i, 5) == Some(i + 4)
  {
  }

  lemma DelimitedPayload(s: seq<byte>, i: nat, bytes: seq<byte>)
    requires |s| <= MAX_INT && Has(s, i, Varint(|bytes|) + bytes)
    ensures SkipPayload(s, i, 2) == Some(i + |Varint(|bytes|)| + |bytes|)
  {
    hide Varint, ReadVarint;
    HasParts(s, i, Varint(|bytes|), bytes);
    VarintAt(s, i, |bytes|);
  }

  lemma SkipSimple(s: seq<byte>, i: nat, depth: nat, f: WireField)
    requires |s| <= MAX_INT && Grammatical(f) && !f.GroupField? && Has(s, i, Spell(f))
    ensures Skip(s, i, depth) == Onward(s, i + |Spell(f)|, depth)
  {
    hide Tag, SkipPayload, Skip, Onward, VarintDigits, Has;
    var tag := Tag(f.number, WireOf(f));
    if f.VarintField? {
      HasParts(s, i, tag, f.digits);
      VarintPayload(s, i + |tag|, f.digits);
    } else if f.DelimitedField? {
      HasParts(s, i, tag, Varint(|f.bytes|) + f.bytes);
      DelimitedPayload(s, i + |tag|, f.bytes);
    } else {
      HasParts(s, i, tag, f.bytes);
      HasWithin(s, i + |tag|, f.bytes);
      FixedPayload(s, i + |tag|);
    }
    SkipTag(s, i, depth, f.number, WireOf(f), i + |Spell(f)|);
  }

  lemma HasWithin(s: seq<byte>, i: nat, x: seq<byte>)
    requires Has(s, i, x)
    ensures i + |x| <= |s|
  {
  }

  /** A grammatical field is skipped to its end, whatever surrounds it and however deep. */
  lemma {:induction false} SkipOver(s: seq<byte>, i: nat, depth: nat, f: WireField)
    requires |s| <= MAX_INT && Grammatical(f) && Has(s, i, Spell(f))
    ensures Skip(s, i, depth) == Onward(s, i + |Spell(f)|, depth)
    decreases f, 0
  {
    hide Varint, Skip, SkipPayload;
    if f.GroupField? {
      var open, close, body := Tag(f.number, 3), Tag(f.number, 4), SpellAll(f.inner);
      HasParts(s, i, open, body + close);
      HasParts(s, i + |open|, body, close);
      PayloadlessTags(s, i + |open|);
      SkipTag(s, i, depth, f.number, 3, i + |open|);
      SkipOverAll(s, i + |open|, depth + 1, f.inner);
      var j := i + |open| + |body|;
      PayloadlessTags(s, j + |close|);
      SkipTag(s, j, depth + 1, f.number, 4, j + |close|);
    } else {
      SkipSimple(s, i, depth, f);
    }
  }

  lemma PayloadlessTags(s: seq<byte>, i: nat)
    requires i <= |s| <= MAX_INT
    ensures SkipPayload(s, i, 3) == Some(i) && SkipPayload(s, i, 4) == Some(i)
  {
  }

  lemma {:induction false} SkipOverAll(s: seq<byte>, i: nat, depth: nat, fields: seq<WireField>)
    requires |s| <= MAX_INT && depth > 0 && (forall k :: 0 <= k < |fields| ==> Grammatical(fields[k])) && Has(s, i, SpellAll(fields))
    ensures Skip(s, i, depth) == Skip(s, i + |SpellAll(fields)|, depth)
    decreases fields, 1
  {
    hide Varint, Skip, SkipPayload, Grammatical;
    if fields != [] {
      HasParts(s, i, Spell(fields[0]), SpellAll(fields[1..]));
      SkipOver(s, i, depth, fields[0]);
      SkipOverAll(s, i + |Spell(fields[0])|, depth, fields[1..]);
    }
  }

  /** Every field of the grammar whose number the message does not know is an unknown field: the
      decoder skips exactly it, so it is transparent wherever it is inserted. */
  lemma GrammaticalIsUnknown(f: WireField, k: Kind)
    requires Grammatical(f) && f.number > 2 && |Spell(f)| <= MAX_INT
    ensures UnknownField(Spell(f), k)
  {
    hide Varint, Skip, SkipPayload, ReadVarint, ReadKnown, Spell;
    var s, wire := Spell(f), WireOf(f);
    assert s[0..] == s && s[..|s|] == s;
    SkipOver(s, 0, 0, f);
    SpellStartsWithTag(f);
    VarintAt(s, 0, 8 * f.number + wire);
    assert (8 * f.number + wire) / 8 == f.number && (8 * f.number + wire) % 8 == wire;
  }

  function WireOf(f: WireField): nat {
    match f
    case VarintField(_, _) => 0
    case Fixed64Field(_, _) => 1
    case DelimitedField(_, _) => 2
    case GroupField(_, _) => 3
    case Fixed32Field(_, _) => 5
  }

  lemma SpellStartsWithTag(f: WireField)
    ensures Has(Spell(f), 0, Tag(f.number, WireOf(f))) && |Spell(f)| > 0
  {
    hide Varint;
  }
}
