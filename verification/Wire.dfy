/** The Protocol Buffers wire format as the generated code reads and writes it: base-128 varints,
    length-delimited and numeric fields, and the skipping of unknown ones. Integers of the program
    are 64 bits wide; conversions that wrap are written out.

    modules/apps/transfer/types/transfer.pb.go, modules/core/02-client/types/client.pb.go. */
module Wire {
  import opened Basics

  type byte = x: int | 0 <= x < 256

  const MAX_INT := 0x7FFF_FFFF_FFFF_FFFF

  /** `int(x)` for a 64-bit unsigned `x`. */
  function ToInt(x: nat): int
    requires x < TWO_TO_THE_64
  {
    if x <= MAX_INT then x else x - TWO_TO_THE_64
  }

  /** `int32(x)`. */
  function ToInt32(x: nat): int {
    var y := x % 0x1_0000_0000;
    if y < 0x8000_0000 then y else y - 0x1_0000_0000
  }

  /** Addition of two non-negative `int`s, which wraps to a negative one on overflow. */
  function AddInt(a: nat, b: nat): int
    requires a <= MAX_INT && b <= MAX_INT
  {
    if a + b <= MAX_INT then a + b else a + b - TWO_TO_THE_64
  }

  // ---------------------------------------------------------------- varints

  /** Base 128, least significant group first, all groups but the last marked by the high bit. */
  function Varint(v: nat): (s: seq<byte>)
    ensures |s| > 0
  {
    if v < 128 then [v] else [v % 128 + 128] + Varint(v / 128)
  }

  /** The number that the low seven bits of each byte spell. */
  function Base128(s: seq<byte>): nat {
    if s == [] then 0 else s[0] % 128 + 128 * Base128(s[1..])
  }

  /** Where a varint of at most `limit` bytes ends. */
  function VarintSize(s: seq<byte>, limit: nat): (n: Option<nat>)
    ensures n.Some? ==> 0 < n.value <= |s| && n.value <= limit
  {
    if limit == 0 || s == [] then None
    else if s[0] < 128 then Some(1)
    else
      var n := VarintSize(s[1..], limit - 1);
      if n.Some? then Some(n.value + 1) else None
  }

  datatype Number = Number(value: nat, size: nat)

  /** Ten bytes at most; what lies beyond 64 bits is lost. */
  function ReadVarint(s: seq<byte>): (r: Option<Number>)
    ensures r.Some? ==> 0 < r.value.size <= |s| && r.value.value < TWO_TO_THE_64
  {
    var n := VarintSize(s, 10);
    if n.Some? then Some(Number(Base128(s[..n.value]) % TWO_TO_THE_64, n.value)) else None
  }

  /** `Len64`: the number of bits. */
  function BitLength(v: nat): nat {
    if v == 0 then 0 else 1 + BitLength(v / 2)
  }

  /** `sovTransfer` and `sovClient`: setting the lowest bit only matters for zero. */
  function Sov(v: nat): nat {
    ((if v == 0 then 1 else BitLength(v)) + 6) / 7
  }

  lemma BitLengthShift(v: nat)
    requires v >= 128
    ensures BitLength(v) == BitLength(v / 128) + 7 && v / 128 > 0
  {
    var a, b := v / 8, v / 64;
    assert v / 2 / 2 / 2 == a && a / 2 / 2 / 2 == b && b / 2 == v / 128;
    assert BitLength(v) == 1 + BitLength(v / 2) == 2 + BitLength(v / 2 / 2) == 3 + BitLength(a);
    assert BitLength(a) == 1 + BitLength(a / 2) == 2 + BitLength(a / 2 / 2) == 3 + BitLength(b);
  }

  /** The precomputed size is the number of bytes written. */
  lemma {:induction false} SovIsSize(v: nat)
    ensures Sov(v) == |Varint(v)|
  {
    if v >= 128 {
      BitLengthShift(v);
      SovIsSize(v / 128);
    } else if v > 0 {
      assert BitLength(v) <= 7 by { BitLengthSmall(v, 7); }
    }
  }

  lemma {:induction false} BitLengthSmall(v: nat, k: nat)
    requires v < Pow2(k)
    ensures BitLength(v) <= k
  {
    if v > 0 {
      BitLengthSmall(v / 2, k - 1);
    }
  }

  function Pow2(k: nat): (p: nat)
    ensures p > 0
  {
    if k == 0 then 1 else 2 * Pow2(k - 1)
  }

  /** 64-bit numbers take at most ten bytes. */
  lemma {:induction false} VarintFits(v: nat, k: nat)
    requires k > 0 && v < Pow128(k)
    ensures |Varint(v)| <= k
  {
    if v >= 128 {
      VarintFits(v / 128, k - 1);
    }
  }

  function Pow128(k: nat): nat {
    if k == 0 then 1 else 128 * Pow128(k - 1)
  }

  lemma {:induction false} VarintDecodes(v: nat, k: nat, x: seq<byte>)
    requires |Varint(v)| <= k
    ensures VarintSize(Varint(v) + x, k) == Some(|Varint(v)|) && Base128(Varint(v)) == v
  {
    var s := Varint(v);
    if v >= 128 {
      VarintDecodes(v / 128, k - 1, x);
      assert (s + x)[1..] == Varint(v / 128) + x;
      assert s[1..] == Varint(v / 128);
    } else {
      assert s[1..] == [];
    }
  }

  /** Reading what was written gives the number back, whatever follows. */
  lemma VarintRoundTrip(v: nat, x: seq<byte>)
    requires v < TWO_TO_THE_64
    ensures ReadVarint(Varint(v) + x) == Some(Number(v, |Varint(v)|))
    ensures |Varint(v)| <= 10
  {
    assert Pow128(10) > TWO_TO_THE_64 by {
      assert Pow128(5) == 0x8_0000_0000;
      assert Pow128(10) == 128 * 128 * 128 * 128 * 128 * Pow128(5);
    }
    VarintFits(v, 10);
    VarintDecodes(v, 10, x);
    assert (Varint(v) + x)[..|Varint(v)|] == Varint(v);
  }

  lemma {:induction false} VarintSizeLocal(s: seq<byte>, x: seq<byte>, limit: nat)
    requires VarintSize(s, limit).Some?
    ensures VarintSize(s + x, limit) == VarintSize(s, limit)
  {
    if s[0] >= 128 {
      assert (s + x)[1..] == s[1..] + x;
      VarintSizeLocal(s[1..], x, limit - 1);
    }
  }

  lemma VarintLocal(s: seq<byte>, x: seq<byte>)
    requires ReadVarint(s).Some?
    ensures ReadVarint(s + x) == ReadVarint(s)
  {
    VarintSizeLocal(s, x, 10);
    var n := VarintSize(s, 10).value;
    assert (s + x)[..n] == s[..n];
  }

  // ---------------------------------------------------------------- skipping

  /** `skipTransfer` from position `i` inside `depth` groups: where the unknown field ends. The
      answer may lie beyond the end of `s`. */
  function Skip(s: seq<byte>, i: nat, depth: nat): (r: Option<nat>)
    requires |s| <= MAX_INT
    ensures r.Some? ==> i < r.value <= MAX_INT && i < |s|
    decreases if i < |s| then |s| - i else 0
  {
    if i >= |s| then None
    else
      var tag := ReadVarint(s[i..]);
      if tag.None? then None
      else
        var next := SkipPayload(s, i + tag.value.size, tag.value.value % 8);
        if next.None? then None
        else
          var wire := tag.value.value % 8;
          if wire == 4 && depth == 0 then None
          else
            var inside := if wire == 3 then depth + 1 else if wire == 4 then depth - 1 else depth;
            if inside == 0 then next else Skip(s, next.value, inside)
  }

  /** The end of a field's payload that starts at `i`. */
  function SkipPayload(s: seq<byte>, i: nat, wire: nat): (r: Option<nat>)
    requires i <= |s| <= MAX_INT
    ensures r.Some? ==> i <= r.value <= MAX_INT
  {
    if wire == 0 then
      var n := VarintSize(s[i..], 10);
      if n.Some? then Some(i + n.value) else None
    else if wire == 1 then NonNegative(AddInt(i, 8))
    else if wire == 2 then
      var length := ReadVarint(s[i..]);
      if length.None? || ToInt(length.value.value) < 0 then None
      else NonNegative(AddInt(i + length.value.size, ToInt(length.value.value)))
    else if wire == 3 || wire == 4 then Some(i)
    else if wire == 5 then NonNegative(AddInt(i, 4))
    else None
  }

  function NonNegative(x: int): Option<nat> {
    if x >= 0 then Some(x) else None
  }

  lemma SkipPayloadLocal(s: seq<byte>, x: seq<byte>, i: nat, wire: nat)
    requires i <= |s| && |s + x| <= MAX_INT && SkipPayload(s, i, wire).Some?
    ensures SkipPayload(s + x, i, wire) == SkipPayload(s, i, wire)
  {
    assert (s + x)[i..] == s[i..] + x;
    if wire == 0 {
      VarintSizeLocal(s[i..], x, 10);
    } else if wire == 2 {
      VarintLocal(s[i..], x);
    }
  }

  /** The depth after a tag of wire type `wire`. */
  function Inside(depth: nat, wire: nat): nat {
    if wire == 3 then depth + 1 else if wire == 4 && depth > 0 then depth - 1 else depth
  }

  /** One turn of the loop. */
  lemma SkipStep(s: seq<byte>, i: nat, depth: nat)
    requires |s| <= MAX_INT && i < |s|
    ensures var tag := ReadVarint(s[i..]);
            Skip(s, i, depth)
            == if tag.None? then None
               else
                 var wire := tag.value.value % 8;
                 var next := SkipPayload(s, i + tag.value.size, wire);
                 if next.None? || (wire == 4 && depth == 0) then None
                 else if Inside(depth, wire) == 0 then next else Skip(s, next.value, Inside(depth, wire))
  {
    hide ReadVarint, SkipPayload;
  }

  lemma {:induction false} SkipLocal(s: seq<byte>, x: seq<byte>, i: nat, depth: nat)
    requires |s + x| <= MAX_INT && Skip(s, i, depth).Some?
    ensures Skip(s + x, i, depth) == Skip(s, i, depth)
    decreases if i < |s| then |s| - i else 0
  {
    hide ReadVarint, SkipPayload, Skip;
    assert i < |s|;
    SkipStep(s, i, depth);
    SkipStep(s + x, i, depth);
    assert (s + x)[i..] == s[i..] + x;
    VarintLocal(s[i..], x);
    var tag := ReadVarint(s[i..]).value;
    var wire := tag.value % 8;
    SkipPayloadLocal(s, x, i + tag.size, wire);
    if Inside(depth, wire) != 0 {
      SkipLocal(s, x, SkipPayload(s, i + tag.size, wire).value, Inside(depth, wire));
    }
  }

  // ---------------------------------------------------------------- fields

  /** The payload kind of the known fields of a message. */
  datatype Kind = Numeric | Delimited

  function WireType(k: Kind): nat {
    if k == Numeric then 0 else 2
  }

  /** A known field; the two messages modelled here know the numbers 1 and 2. */
  datatype Field = Num(number: nat, value: nat) | Bytes(number: nat, bytes: seq<byte>)

  /** One field of the input: `None` in place of an unknown one. */
  datatype Parsed = Parsed(field: Option<Field>, size: nat)

  function ReadField(s: seq<byte>, k: Kind): (r: Option<Parsed>)
    requires |s| <= MAX_INT
    ensures r.Some? ==> 0 < r.value.size <= |s|
  {
    var tag := ReadVarint(s);
    if tag.None? then None
    else
      var number, wire := ToInt32(tag.value.value / 8), tag.value.value % 8;
      if wire == 4 || number <= 0 then None
      else if number == 1 || number == 2 then
        if wire != WireType(k) then None
        else ReadKnown(s, tag.value.size, number, k)
      else
        var n := Skip(s, 0, 0);
        if n.None? || n.value > |s| then None else Some(Parsed(None, n.value))
  }

  function ReadKnown(s: seq<byte>, i: nat, number: nat, k: Kind): (r: Option<Parsed>)
    requires i <= |s| <= MAX_INT
    ensures r.Some? ==> i < r.value.size <= |s|
  {
    var v := ReadVarint(s[i..]);
    if v.None? then None
    else if k == Numeric then Some(Parsed(Some(Num(number, v.value.value)), i + v.value.size))
    else
      var start, length := i + v.value.size, ToInt(v.value.value);
      if length < 0 || start + length > |s| then None
      else Some(Parsed(Some(Bytes(number, s[start..start + length])), start + length))
  }

  /** The known fields of a message in order; `None` if the bytes are not a message. */
  function Fields(s: seq<byte>, k: Kind): (r: Option<seq<Field>>)
    requires |s| <= MAX_INT
  {
    if s == [] then Some([])
    else
      var f := ReadField(s, k);
      if f.None? then None
      else
        var rest := Fields(s[f.value.size..], k);
        if rest.None? then None
        else Some((if f.value.field.Some? then [f.value.field.value] else []) + rest.value)
  }

  /** What the varint loop has accumulated when it gives up, after ten bytes or at the end. */
  function Partial(s: seq<byte>): nat {
    Base128(if |s| <= 10 then s else s[..10]) % TWO_TO_THE_64
  }

  /** A numeric field whose varint is refused has been assigned as far as it was read. */
  function TornField(s: seq<byte>, k: Kind): Option<Field> {
    var tag := ReadVarint(s);
    if tag.None? then None
    else
      var number, wire, rest := ToInt32(tag.value.value / 8), tag.value.value % 8, s[tag.value.size..];
      if (number == 1 || number == 2) && wire == 0 && k == Numeric && ReadVarint(rest).None?
      then Some(Num(number, Partial(rest))) else None
  }

  /** The fields that have been assigned, in order, when decoding stops: at the end of a message, or
      where it is refused. */
  function Assigned(s: seq<byte>, k: Kind): seq<Field>
    requires |s| <= MAX_INT
  {
    if s == [] then []
    else
      var f := ReadField(s, k);
      if f.None? then (var torn := TornField(s, k); if torn.Some? then [torn.value] else [])
      else Head(f.value) + Assigned(s[f.value.size..], k)
  }

  /** On a message, those are all its fields. */
  lemma {:induction false} AssignedAll(s: seq<byte>, k: Kind)
    requires |s| <= MAX_INT && Fields(s, k).Some?
    ensures Assigned(s, k) == Fields(s, k).value
    decreases |s|
  {
    hide ReadField;
    if s != [] {
      FieldsStep(s, k);
      AssignedAll(s[ReadField(s, k).value.size..], k);
    }
  }

  lemma ReadKnownLocal(s: seq<byte>, x: seq<byte>, i: nat, number: nat, k: Kind)
    requires i <= |s| && |s + x| <= MAX_INT && ReadKnown(s, i, number, k).Some?
    ensures ReadKnown(s + x, i, number, k) == ReadKnown(s, i, number, k)
  {
    hide ReadVarint;
    assert (s + x)[i..] == s[i..] + x;
    VarintLocal(s[i..], x);
    if k == Delimited {
      var v := ReadVarint(s[i..]).value;
      var start, end := i + v.size, i + v.size + ToInt(v.value);
      assert (s + x)[start..end] == s[start..end];
    }
  }

  lemma ReadFieldLocal(s: seq<byte>, x: seq<byte>, k: Kind)
    requires |s + x| <= MAX_INT && ReadField(s, k).Some?
    ensures ReadField(s + x, k) == ReadField(s, k)
  {
    hide ReadVarint, ReadKnown, Skip;
    VarintLocal(s, x);
    var tag := ReadVarint(s).value;
    var number := ToInt32(tag.value / 8);
    if number == 1 || number == 2 {
      ReadKnownLocal(s, x, tag.size, number, k);
    } else {
      SkipLocal(s, x, 0, 0);
    }
  }

  /** A message can be cut at any field boundary: the fields of both parts are the fields of the
      whole, and the whole is a message exactly when the rest is one. */
  lemma {:induction false} FieldsAppend(a: seq<byte>, b: seq<byte>, k: Kind)
    requires |a + b| <= MAX_INT && Fields(a, k).Some?
    ensures Fields(a + b, k) == (if Fields(b, k).Some? then Some(Fields(a, k).value + Fields(b, k).value) else None)
    decreases |a|
  {
    hide ReadField, Fields;
    if a == [] {
      assert a + b == b;
      NoFields(k);
      assert Fields(b, k).Some? ==> [] + Fields(b, k).value == Fields(b, k).value;
    } else {
      assert ReadField(a, k).Some? by { FirstField(a, k); }
      ReadFieldLocal(a, b, k);
      var f := ReadField(a, k).value;
      var rest := a[f.size..];
      assert (a + b)[f.size..] == rest + b;
      FieldsStep(a, k);
      FieldsStep(a + b, k);
      FieldsAppend(rest, b, k);
      if Fields(b, k).Some? {
        HeadAssoc(Head(f), Fields(rest, k).value, Fields(b, k).value);
      }
    }
  }

  lemma NoFields(k: Kind)
    ensures Fields([], k) == Some([])
  {
  }

  lemma FirstField(s: seq<byte>, k: Kind)
    requires 0 < |s| <= MAX_INT && Fields(s, k).Some?
    ensures ReadField(s, k).Some?
  {
    hide ReadField;
  }

  lemma HeadAssoc(a: seq<Field>, b: seq<Field>, c: seq<Field>)
    ensures a + (b + c) == a + b + c
  {
  }

  function Head(f: Parsed): seq<Field> {
    if f.field.Some? then [f.field.value] else []
  }

  lemma FieldsStep(s: seq<byte>, k: Kind)
    requires 0 < |s| <= MAX_INT && ReadField(s, k).Some?
    ensures var f := ReadField(s, k).value;
            var rest := Fields(s[f.size..], k);
            Fields(s, k) == if rest.None? then None else Some(Head(f) + rest.value)
  {
    hide ReadField;
  }

  lemma NoField(s: seq<byte>, k: Kind)
    requires 0 < |s| <= MAX_INT && ReadField(s, k).None?
    ensures Fields(s, k).None?
  {
    hide ReadField;
  }

  /** Bytes that are one field. */
  lemma OneField(s: seq<byte>, f: Option<Field>, k: Kind)
    requires 0 < |s| <= MAX_INT && ReadField(s, k) == Some(Parsed(f, |s|))
    ensures Fields(s, k) == Some(if f.Some? then [f.value] else [])
  {
    hide ReadField;
    FieldsStep(s, k);
    assert s[|s|..] == [];
    assert Fields([], k) == Some([]);
    hide Fields;
    assert Head(Parsed(f, |s|)) + [] == Head(Parsed(f, |s|));
  }

  /** Bytes that the decoder takes for a single field with a number the message does not know. */
  ghost predicate UnknownField(u: seq<byte>, k: Kind) {
    |u| <= MAX_INT && ReadField(u, k) == Some(Parsed(None, |u|))
  }

  /** Unknown fields are transparent: inserted between any two fields, they change neither whether
      the bytes are a message nor the message. */
  lemma UnknownFieldTransparent(a: seq<byte>, u: seq<byte>, b: seq<byte>, k: Kind)
    requires |a + u + b| <= MAX_INT && Fields(a, k).Some? && UnknownField(u, k)
    ensures Fields(a + u + b, k) == Fields(a + b, k)
  {
    hide ReadField, Fields;
    assert |u| > 0;
    OneField(u, None, k);
    FieldsAppend(u, b, k);
    FieldsAppend(a, u + b, k);
    FieldsAppend(a, b, k);
    assert a + u + b == a + (u + b);
    assert Fields(b, k).Some? ==> [] + Fields(b, k).value == Fields(b, k).value;
  }

  // ---------------------------------------------------------------- writing fields

  function NumField(number: nat, v: nat): (s: seq<byte>)
    requires number < 16
  {
    if v == 0 then [] else [8 * number] + Varint(v)
  }

  function BytesField(number: nat, data: seq<byte>): (s: seq<byte>)
    requires number < 16
  {
    if data == [] then [] else [8 * number + 2] + Varint(|data|) + data
  }

  lemma TagReads(number: nat, wire: nat, x: seq<byte>)
    requires number < 16 && wire < 8
    ensures ReadVarint([8 * number + wire] + x) == Some(Number(8 * number + wire, 1))
  {
    VarintRoundTrip(8 * number + wire, x);
    assert Varint(8 * number + wire) == [8 * number + wire];
  }

  lemma NumFieldReads(number: nat, v: nat)
    requires number == 1 || number == 2
    requires v < TWO_TO_THE_64
    ensures |NumField(number, v)| <= 11
    ensures Fields(NumField(number, v), Numeric) == Some(if v == 0 then [] else [Num(number, v)])
  {
    VarintRoundTrip(v, []);
    if v != 0 {
      hide ReadVarint, Varint;
      var s := NumField(number, v);
      TagReads(number, 0, Varint(v));
      assert s[1..] == Varint(v) && Varint(v) + [] == Varint(v);
      hide Fields;
      OneField(s, Some(Num(number, v)), Numeric);
    }
  }

  lemma BytesFieldParses(number: nat, data: seq<byte>)
    requires number == 1 || number == 2
    requires data != [] && |BytesField(number, data)| <= MAX_INT
    ensures ReadField(BytesField(number, data), Delimited) == Some(Parsed(Some(Bytes(number, data)), |BytesField(number, data)|))
  {
    hide ReadVarint, Varint, Skip, ReadKnown, BytesField;
    var s, l := BytesField(number, data), Varint(|data|);
    BytesFieldShape(number, data);
    TagReads(number, 2, l + data);
    assert (8 * number + 2) / 8 == number && (8 * number + 2) % 8 == 2;
    KnownReads(s, number, data);
  }

  lemma BytesFieldShape(number: nat, data: seq<byte>)
    requires number < 16 && data != []
    ensures var s, l := BytesField(number, data), Varint(|data|);
            && s == [8 * number + 2] + (l + data) && s[1..] == l + data && |s| == 1 + |l| + |data|
            && s[1 + |l|..1 + |l| + |data|] == data
  {
    hide Varint;
  }

  lemma KnownReads(s: seq<byte>, number: nat, data: seq<byte>)
    requires 0 < |s| <= MAX_INT && |s| == 1 + |Varint(|data|)| + |data|
    requires s[1..] == Varint(|data|) + data && s[1 + |Varint(|data|)|..1 + |Varint(|data|)| + |data|] == data
    ensures ReadKnown(s, 1, number, Delimited) == Some(Parsed(Some(Bytes(number, data)), |s|))
  {
    hide ReadVarint, Varint;
    VarintRoundTrip(|data|, data);
  }

  lemma BytesFieldReads(number: nat, data: seq<byte>)
    requires number == 1 || number == 2
    requires |BytesField(number, data)| <= MAX_INT
    ensures Fields(BytesField(number, data), Delimited) == Some(if data == [] then [] else [Bytes(number, data)])
  {
    if data != [] {
      hide ReadField, Varint;
      BytesFieldParses(number, data);
      OneField(BytesField(number, data), Some(Bytes(number, data)), Delimited);
    }
  }
}
